/** The same operations as threads that interleave: every session call, every call between servers and every
    callback runs in a thread of its own. A mutex is held by the thread whose control point lies between its
    lock and its unlock. No call fails: a callback that would throw is not a step. Users stay logged in. */
module Threads {
  import opened Sequences
  import opened Wrappers
  import opened Identifiers

  type Tid = nat
  /** The identity of a LocalChat object, which its ID is not: IDs are used again. */
  type RoomRef = nat

  datatype Change = Joined(who: UserID) | Left(who: UserID)

  /** How far the creation of a chat by thread `maker` has come: in the server's map; in the creator's session; on the
      creator's client, since there have been `at` joins and leaves. */
  datatype Stage = Listed(maker: Tid) | Entered(maker: Tid) | Filed(at: nat)

  /** What the thread that holds the participants mutex is doing to the room: nothing yet; waiting for the client
      of an invited user; going through the participants, with `todo` still to be told of the change. */
  datatype Busy =
    | Idle
    | Expecting(owner: Tid, guest: UserID)
    | Telling(owner: Tid, change: Change, todo: set<UserID>)

  /** `key` is what the creator's client made for the chat; the server never sees it. */
  datatype Room = Room(id: ChatID, creator: UserID, key: string, stage: Stage, members: set<UserID>,
                       history: seq<Change>, busy: Busy)
  {
    ghost function Guest(): Option<UserID> {
      match busy
      case Expecting(_, guest) => Some(guest)
      case Telling(_, Joined(who), _) => Some(who)
      case _ => None
    }

    /** Whom a client has to show in the chat: the members, and an invited user of whom it has been told. */
    ghost function Due(user: UserID): set<UserID> {
      if busy.Telling? && busy.change.Joined? && user !in busy.todo && (user in members || user == busy.change.who) then
        members + {busy.change.who}
      else if user in members then members
      else {}
    }

    /** Every join and leave that `user` has been told of, or was before its time. */
    ghost function Story(user: UserID): seq<Change> {
      history + if busy.Telling? && user !in busy.todo then [busy.change] else []
    }

    /** The client of `user` has got the chat when the story was `i` changes long: as the user last joined or, of the
        creator, as the client filed the chat. */
    ghost predicate BeginsAt(user: UserID, i: nat) {
      IsJoin(user, i) || (user == creator && stage == Filed(i))
    }

    ghost predicate IsJoin(user: UserID, i: nat) {
      0 < i <= |Story(user)| && Story(user)[i - 1] == Joined(user) && (user == creator && stage.Filed? ==> stage.at < i)
    }

    /** What the client of `user` is to have seen: every join and leave since it got the chat, with none of the user's own
        among them. */
    ghost predicate IsSeen(user: UserID, seen: seq<Change>) {
      && IsSuffix(seen, Story(user)) && Joined(user) !in seen && Left(user) !in seen
      && BeginsAt(user, |Story(user)| - |seen|)
    }

    /** The client of `user` has been given the chat, and the user has not been taken out of it since. */
    ghost predicate ShownTo(user: UserID) {
      (stage.Filed? || user != creator) && (user in members || (busy.Telling? && Guest() == Some(user)))
    }
  }

  /** A LocalChat object, or a RemoteChat that asks the chat's server for it each time. */
  datatype Entry = Direct(room: RoomRef) | ByName

  /** `leaving` marks the chat that a thread holding the session's mutex is taking the user out of. */
  datatype Session = Session(entries: map<ChatID, Entry>, leaving: Option<(Tid, ChatID)>)

  datatype Receipt = Receipt(sender: UserID, turn: nat, id: ChatID, text: string)

  /** A client's chat: who is in it, its key and the room that it is the key of, what it was told of others joining and
      leaving, and what it logged. */
  datatype View = View(users: set<UserID>, key: string, of: RoomRef, seen: seq<Change>, log: seq<Receipt>)

  /** What a client asks for, with the key it has made for a new chat or hands to an invited user, and then also the room
      that it is the key of. */
  datatype Op =
    | Open(key: string)
    | Send(id: ChatID, text: string)
    | Invite(id: ChatID, invitee: UserID, key: string, of: RoomRef)
    | Leave(id: ChatID)

  datatype Point =
    | NeedSession | HasSession | NeedRoom(room: RoomRef) | HasRoom(room: RoomRef)
    | Fanning(room: RoomRef, todo: set<UserID>)
    | NeedSessions(room: RoomRef) | NeedChats(room: RoomRef) | NeedInvitee(room: RoomRef) | HasInvitee(room: RoomRef)
    | Calling(room: RoomRef) | Spreading(room: RoomRef)
    | Testing(room: RoomRef) | Unlisting(room: RoomRef) | Forgetting
    | Releasing | Closing | Finished
    | NeedName | Owning(room: RoomRef) | Filing(room: RoomRef)

  /** `turn` orders the threads of one session by when they got its mutex; `snapshot` is whom a message goes to. */
  datatype Proc = Proc(user: UserID, op: Op, at: Point, turn: nat, snapshot: set<UserID>)

  datatype Lock = SessionLock(user: UserID) | RoomLock(room: RoomRef) | SessionsLock(host: Host) | ChatsLock(host: Host)

  datatype State = State(
    home: string -> Host,
    sessions: map<UserID, Session>,
    chats: map<ChatID, RoomRef>,
    rooms: map<RoomRef, Room>,
    clients: map<UserID, map<ChatID, View>>,
    threads: map<Tid, Proc>,
    clock: nat,
    /** Every appendMessageToChat that reached a client, in order. */
    inbox: map<UserID, seq<Receipt>>,
    /** Some client received a message from a user that it does not show in the chat. */
    dropped: bool)
  {
    ghost predicate Shows(user: UserID, id: ChatID) {
      user in clients && id in clients[user]
    }

    ghost predicate IsFree(lock: Lock) {
      forall t :: t in threads ==> !Holds(home, threads[t], lock)
    }
  }

  ghost predicate Holds(home: string -> Host, p: Proc, lock: Lock) {
    match lock
    case SessionLock(user) =>
      || (user == p.user && InSession(p.at))
      || (p.at.HasInvitee? && p.op.Invite? && user == p.op.invitee)
    case RoomLock(room) =>
      InRoom(p.at) && p.at.room == room
    case SessionsLock(host) =>
      p.op.Invite? && (p.at.NeedChats? || p.at.NeedInvitee? || p.at.HasInvitee?) && host == home(p.op.invitee)
    case ChatsLock(host) =>
      p.op.Invite? && (p.at.NeedInvitee? || p.at.HasInvitee?) && host == home(p.op.invitee) == home(p.op.id)
  }

  ghost predicate InSession(at: Point) {
    !(at.NeedSession? || at.Closing? || at.Finished? || at.NeedName? || at.Owning? || at.Filing?)
  }

  ghost predicate InRoom(at: Point) {
    at.HasRoom? || at.NeedSessions? || at.NeedChats? || at.NeedInvitee? || at.HasInvitee? || at.Calling? || at.Spreading?
  }

  // ----- Steps -----

  datatype Action =
    | Begin(t: Tid, user: UserID, op: Op)
    | TakeSession(t: Tid)
    | Find(t: Tid)
    | TakeRoom(t: Tid)
    | Snapshot(t: Tid)
    | Deliver(t: Tid, to: UserID)
    | Check(t: Tid)
    | TakeSessions(t: Tid)
    | TakeChats(t: Tid)
    | TakeInvitee(t: Tid)
    | EnterInvitee(t: Tid)
    | CallInvitee(t: Tid)
    | Part(t: Tid)
    | Tell(t: Tid, to: UserID)
    | EndTelling(t: Tid)
    | TestEmpty(t: Tid)
    | Unlist(t: Tid)
    | Forget(t: Tid)
    | Release(t: Tid)
    | Close(t: Tid)
    | ListChat(t: Tid, room: RoomRef)
    | OwnChat(t: Tid)
    | FileChat(t: Tid)

  ghost function Goto(s: State, t: Tid, at: Point): State
    requires t in s.threads
  {
    s.(threads := s.threads[t := s.threads[t].(at := at)])
  }

  ghost function SetView(s: State, user: UserID, id: ChatID, v: View): map<UserID, map<ChatID, View>>
    requires user in s.clients
  {
    s.clients[user := s.clients[user][id := v]]
  }

  ghost function Apply(users: set<UserID>, change: Change): set<UserID> {
    match change
    case Joined(who) => users + {who}
    case Left(who) => users - {who}
  }

  /** The room that a session's entry leads to. */
  ghost function Found(s: State, user: UserID, id: ChatID): Option<RoomRef> {
    if user !in s.sessions || id !in s.sessions[user].entries then None
    else if s.sessions[user].entries[id].Direct? then Some(s.sessions[user].entries[id].room)
    else if id in s.chats then Some(s.chats[id]) else None
  }

  // A step can be taken when its thread is at the step, the mutex it needs is free and the callback it makes works.

  /** A client asks for something: to open a chat, or something about a chat that it holds. It invites with the key
      that it then has for the chat. */
  ghost predicate CanBegin(s: State, t: Tid, user: UserID, op: Op) {
    && t !in s.threads && user in s.sessions
    && (op.Open? || s.Shows(user, op.id))
    && (op.Invite? ==>
          op.invitee != user && op.key == s.clients[user][op.id].key && op.of == s.clients[user][op.id].of)
  }

  ghost function DoBegin(s: State, t: Tid, user: UserID, op: Op): State {
    s.(threads := s.threads[t := Proc(user, op, if op.Open? then NeedName else NeedSession, 0, {})])
  }

  ghost predicate CanTakeSession(s: State, t: Tid) {
    t in s.threads && s.threads[t].at.NeedSession? && s.IsFree(SessionLock(s.threads[t].user))
  }

  ghost function DoTakeSession(s: State, t: Tid): State
    requires CanTakeSession(s, t)
  {
    s.(threads := s.threads[t := s.threads[t].(at := HasSession, turn := s.clock)], clock := s.clock + 1)
  }

  /** The session looks for the chat: a chat of its own server is at hand, for another its server is asked. */
  ghost predicate CanFind(s: State, t: Tid) {
    && t in s.threads && s.threads[t].at.HasSession? && !s.threads[t].op.Open? && s.threads[t].user in s.sessions
    && var entries, id := s.sessions[s.threads[t].user].entries, s.threads[t].op.id;
       id in entries && entries[id].ByName? ==> s.IsFree(ChatsLock(s.home(id)))
  }

  ghost function DoFind(s: State, t: Tid): State
    requires CanFind(s, t)
  {
    Goto(s, t, match Found(s, s.threads[t].user, s.threads[t].op.id) case None => Releasing case Some(o) => NeedRoom(o))
  }

  ghost predicate CanTakeRoom(s: State, t: Tid) {
    t in s.threads && s.threads[t].at.NeedRoom? && s.IsFree(RoomLock(s.threads[t].at.room))
  }

  ghost function DoTakeRoom(s: State, t: Tid): State
    requires CanTakeRoom(s, t)
  {
    Goto(s, t, HasRoom(s.threads[t].at.room))
  }

  // ----- appendMessageFrom -----

  /** The participants are copied and their mutex is released before anyone gets the message. */
  ghost predicate CanSnapshot(s: State, t: Tid) {
    t in s.threads && s.threads[t].at.HasRoom? && s.threads[t].op.Send? && s.threads[t].at.room in s.rooms
  }

  ghost function DoSnapshot(s: State, t: Tid): State
    requires CanSnapshot(s, t)
  {
    var o := s.threads[t].at.room;
    s.(threads := s.threads[t := s.threads[t].(at := Fanning(o, s.rooms[o].members), snapshot := s.rooms[o].members)])
  }

  ghost predicate CanDeliver(s: State, t: Tid, to: UserID) {
    && t in s.threads && s.threads[t].at.Fanning? && s.threads[t].op.Send? && to in s.threads[t].at.todo
    && to in s.clients && to in s.inbox
  }

  ghost function Logged(v: View, receipt: Receipt): View {
    v.(log := v.log + [receipt])
  }

  /** appendMessageToChat at one client: a chat it no longer has, a sender it does not show, or one more message. */
  ghost function DoDeliver(s: State, t: Tid, to: UserID): State
    requires CanDeliver(s, t, to)
  {
    var p := s.threads[t];
    var receipt := Receipt(p.user, p.turn, p.op.id, p.op.text);
    var shows := p.op.id in s.clients[to] && p.user in s.clients[to][p.op.id].users;
    s.(threads := s.threads[t := p.(at := p.at.(todo := p.at.todo - {to}))],
       inbox := s.inbox[to := s.inbox[to] + [receipt]],
       dropped := s.dropped || (p.op.id in s.clients[to] && !shows),
       clients := if shows then SetView(s, to, p.op.id, Logged(s.clients[to][p.op.id], receipt)) else s.clients)
  }

  // ----- inviteUser -----

  ghost predicate CanCheck(s: State, t: Tid) {
    t in s.threads && s.threads[t].at.HasRoom? && s.threads[t].op.Invite? && s.threads[t].at.room in s.rooms
  }

  ghost function DoCheck(s: State, t: Tid): State
    requires CanCheck(s, t)
  {
    var p := s.threads[t];
    Goto(s, t, if p.op.invitee in s.rooms[p.at.room].members then Releasing else NeedSessions(p.at.room))
  }

  ghost predicate CanTakeSessions(s: State, t: Tid) {
    && t in s.threads && s.threads[t].at.NeedSessions? && s.threads[t].op.Invite?
    && s.IsFree(SessionsLock(s.home(s.threads[t].op.invitee)))
  }

  ghost function DoTakeSessions(s: State, t: Tid): State
    requires CanTakeSessions(s, t)
  {
    Goto(s, t, if s.threads[t].op.invitee in s.sessions then NeedChats(s.threads[t].at.room) else Releasing)
  }

  ghost predicate GuestIsLocal(s: State, p: Proc)
    requires p.op.Invite?
  {
    s.home(p.op.invitee) == s.home(p.op.id)
  }

  /** Only a user of the chat's own server is given the chat itself, out of the server's map. */
  ghost predicate CanTakeChats(s: State, t: Tid) {
    && t in s.threads && s.threads[t].at.NeedChats? && s.threads[t].op.Invite?
    && (GuestIsLocal(s, s.threads[t]) ==> s.IsFree(ChatsLock(s.home(s.threads[t].op.id))))
  }

  ghost function DoTakeChats(s: State, t: Tid): State
    requires CanTakeChats(s, t)
  {
    var p := s.threads[t];
    Goto(s, t, if GuestIsLocal(s, p) && p.op.id !in s.chats then Releasing else NeedInvitee(p.at.room))
  }

  ghost predicate CanTakeInvitee(s: State, t: Tid) {
    && t in s.threads && s.threads[t].at.NeedInvitee? && s.threads[t].op.Invite?
    && s.IsFree(SessionLock(s.threads[t].op.invitee))
  }

  ghost function DoTakeInvitee(s: State, t: Tid): State
    requires CanTakeInvitee(s, t)
  {
    Goto(s, t, HasInvitee(s.threads[t].at.room))
  }

  ghost predicate CanEnterInvitee(s: State, t: Tid) {
    && t in s.threads && s.threads[t].at.HasInvitee? && s.threads[t].op.Invite? && s.threads[t].at.room in s.rooms
    && s.threads[t].op.invitee in s.sessions && (GuestIsLocal(s, s.threads[t]) ==> s.threads[t].op.id in s.chats)
  }

  /** addChat in the session of the invited user; then its mutex and those of the server are released. */
  ghost function DoEnterInvitee(s: State, t: Tid): State
    requires CanEnterInvitee(s, t)
  {
    var p, o := s.threads[t], s.threads[t].at.room;
    var guest := s.sessions[p.op.invitee];
    var entry := if GuestIsLocal(s, p) then Direct(s.chats[p.op.id]) else ByName;
    var refused := p.op.id in guest.entries;
    s.(threads := s.threads[t := p.(at := if refused then Releasing else Calling(o))],
       rooms := if refused then s.rooms else s.rooms[o := s.rooms[o].(busy := Expecting(t, p.op.invitee))],
       sessions := if refused then s.sessions
                   else s.sessions[p.op.invitee := guest.(entries := guest.entries[p.op.id := entry])])
  }

  ghost predicate CanCallInvitee(s: State, t: Tid) {
    && t in s.threads && s.threads[t].at.Calling? && s.threads[t].op.Invite? && s.threads[t].at.room in s.rooms
    && s.threads[t].op.invitee in s.clients && !s.Shows(s.threads[t].op.invitee, s.threads[t].op.id)
  }

  ghost function DoCallInvitee(s: State, t: Tid): State
    requires CanCallInvitee(s, t)
  {
    var p := s.threads[t];
    var room := s.rooms[p.at.room];
    var view := View(room.members + {p.op.invitee}, p.op.key, p.op.of, [], []);
    s.(threads := s.threads[t := p.(at := Spreading(p.at.room))],
       rooms := s.rooms[p.at.room := room.(busy := Telling(t, Joined(p.op.invitee), room.members))],
       clients := SetView(s, p.op.invitee, p.op.id, view))
  }

  // ----- inviteUser and leaveChat: telling the participants -----

  ghost predicate CanTell(s: State, t: Tid, to: UserID) {
    && t in s.threads && s.threads[t].at.Spreading? && s.threads[t].at.room in s.rooms
    && var room := s.rooms[s.threads[t].at.room];
       room.busy.Telling? && to in room.busy.todo && s.Shows(to, room.id)
  }

  ghost function DoTell(s: State, t: Tid, to: UserID): State
    requires CanTell(s, t, to)
  {
    var o := s.threads[t].at.room;
    var room := s.rooms[o];
    var view := s.clients[to][room.id];
    s.(rooms := s.rooms[o := room.(busy := room.busy.(todo := room.busy.todo - {to}))],
       clients := SetView(s, to, room.id, view.(users := Apply(view.users, room.busy.change),
                                                seen := view.seen + [room.busy.change])))
  }

  ghost predicate CanEndTelling(s: State, t: Tid) {
    && t in s.threads && s.threads[t].at.Spreading? && s.threads[t].at.room in s.rooms
    && var room := s.rooms[s.threads[t].at.room];
       room.busy.Telling? && room.busy.todo == {}
  }

  /** Everyone has been told: an invited user becomes a participant; the participants mutex is released. */
  ghost function DoEndTelling(s: State, t: Tid): State
    requires CanEndTelling(s, t)
  {
    var o := s.threads[t].at.room;
    var room := s.rooms[o];
    var change := room.busy.change;
    s.(threads := s.threads[t := s.threads[t].(at := if change.Joined? then Releasing else Testing(o))],
       rooms := s.rooms[o := room.(members := Apply(room.members, change), history := room.history + [change], busy := Idle)])
  }

  // ----- leaveChat -----

  ghost predicate CanPart(s: State, t: Tid) {
    && t in s.threads && s.threads[t].at.HasRoom? && s.threads[t].op.Leave? && s.threads[t].at.room in s.rooms
    && s.threads[t].user in s.sessions
  }

  ghost function DoPart(s: State, t: Tid): State
    requires CanPart(s, t)
  {
    var p, o := s.threads[t], s.threads[t].at.room;
    var rest := s.rooms[o].members - {p.user};
    var refused := p.user !in s.rooms[o].members;
    s.(threads := s.threads[t := p.(at := if refused then Releasing else Spreading(o))],
       rooms := if refused then s.rooms else s.rooms[o := s.rooms[o].(members := rest, busy := Telling(t, Left(p.user), rest))],
       sessions := if refused then s.sessions
                   else s.sessions[p.user := s.sessions[p.user].(leaving := Some((t, p.op.id)))])
  }

  /** The participants are looked at once more, after their mutex has been released. */
  ghost predicate CanTestEmpty(s: State, t: Tid) {
    t in s.threads && s.threads[t].at.Testing? && s.threads[t].at.room in s.rooms
  }

  ghost function DoTestEmpty(s: State, t: Tid): State
    requires CanTestEmpty(s, t)
  {
    var o := s.threads[t].at.room;
    Goto(s, t, if s.rooms[o].members == {} then Unlisting(o) else Forgetting)
  }

  ghost predicate CanUnlist(s: State, t: Tid) {
    && t in s.threads && s.threads[t].at.Unlisting? && s.threads[t].op.Leave? && s.threads[t].user in s.sessions
    && s.IsFree(ChatsLock(s.home(s.threads[t].op.id)))
  }

  /** removeChat goes by the ID; if the map no longer has it, the exception keeps the session from forgetting. */
  ghost function DoUnlist(s: State, t: Tid): State
    requires CanUnlist(s, t)
  {
    var p := s.threads[t];
    var refused := p.op.id !in s.chats;
    s.(threads := s.threads[t := p.(at := if refused then Releasing else Forgetting)],
       chats := s.chats - {p.op.id},
       sessions := if refused then s.sessions[p.user := s.sessions[p.user].(leaving := None)] else s.sessions)
  }

  ghost predicate CanForget(s: State, t: Tid) {
    t in s.threads && s.threads[t].at.Forgetting? && s.threads[t].op.Leave? && s.threads[t].user in s.sessions
  }

  ghost function DoForget(s: State, t: Tid): State
    requires CanForget(s, t)
  {
    var p := s.threads[t];
    s.(threads := s.threads[t := p.(at := Releasing)],
       sessions := s.sessions[p.user := Session(s.sessions[p.user].entries - {p.op.id}, None)])
  }

  // ----- Return to the client -----

  ghost predicate CanRelease(s: State, t: Tid) {
    t in s.threads && (s.threads[t].at.Releasing? || (s.threads[t].at.Fanning? && s.threads[t].at.todo == {}))
  }

  ghost function DoRelease(s: State, t: Tid): State
    requires CanRelease(s, t)
  {
    Goto(s, t, if s.threads[t].op.Leave? then Closing else Finished)
  }

  ghost predicate CanClose(s: State, t: Tid) {
    t in s.threads && s.threads[t].at.Closing? && s.threads[t].op.Leave? && s.threads[t].user in s.clients
  }

  /** leaveChatCompletedSlot goes by the ID, too. */
  ghost function DoClose(s: State, t: Tid): State
    requires CanClose(s, t)
  {
    var p := s.threads[t];
    s.(threads := s.threads[t := p.(at := Finished)],
       clients := s.clients[p.user := s.clients[p.user] - {p.op.id}])
  }

  // ----- initChat -----

  ghost predicate CanListChat(s: State, t: Tid, o: RoomRef) {
    && t in s.threads && s.threads[t].at.NeedName? && s.threads[t].op.Open? && o !in s.rooms
    && s.IsFree(ChatsLock(s.home(s.threads[t].user)))
  }

  ghost function DoListChat(s: State, t: Tid, o: RoomRef): State
    requires CanListChat(s, t, o)
  {
    var p := s.threads[t];
    var id := NextName(s.chats.Keys, s.home(p.user));
    s.(threads := s.threads[t := p.(at := Owning(o))],
       rooms := s.rooms[o := Room(id, p.user, p.op.key, Listed(t), {p.user}, [], Idle)],
       chats := s.chats[id := o])
  }

  ghost predicate CanOwnChat(s: State, t: Tid) {
    && t in s.threads && s.threads[t].at.Owning? && s.threads[t].at.room in s.rooms && s.threads[t].user in s.sessions
    && s.IsFree(SessionLock(s.threads[t].user))
  }

  ghost function DoOwnChat(s: State, t: Tid): State
    requires CanOwnChat(s, t)
  {
    var p := s.threads[t];
    var room, own := s.rooms[p.at.room], s.sessions[p.user];
    s.(threads := s.threads[t := p.(at := Filing(p.at.room))],
       rooms := s.rooms[p.at.room := room.(stage := Entered(t))],
       sessions := s.sessions[p.user := own.(entries := own.entries[room.id := Direct(p.at.room)])])
  }

  ghost predicate CanFileChat(s: State, t: Tid) {
    && t in s.threads && s.threads[t].at.Filing? && s.threads[t].op.Open? && s.threads[t].at.room in s.rooms
    && s.threads[t].user in s.clients
  }

  ghost function DoFileChat(s: State, t: Tid): State
    requires CanFileChat(s, t)
  {
    var p := s.threads[t];
    var room := s.rooms[p.at.room];
    s.(threads := s.threads[t := p.(at := Finished)],
       rooms := s.rooms[p.at.room := room.(stage := Filed(|room.Story(p.user)|))],
       clients := SetView(s, p.user, room.id, View({p.user}, p.op.key, p.at.room, [], [])))
  }

  // ----- All steps -----

  /** What a client asks for, and the steps of initChat. */
  ghost predicate OpenNext(s: State, a: Action, s': State) {
    match a
    case Begin(t, user, op) => CanBegin(s, t, user, op) && s' == DoBegin(s, t, user, op)
    case ListChat(t, room) => CanListChat(s, t, room) && s' == DoListChat(s, t, room)
    case OwnChat(t) => CanOwnChat(s, t) && s' == DoOwnChat(s, t)
    case FileChat(t) => CanFileChat(s, t) && s' == DoFileChat(s, t)
    case _ => false
  }

  /** The steps of sendMessage, and those it shares. */
  ghost predicate SendNext(s: State, a: Action, s': State) {
    match a
    case TakeSession(t) => CanTakeSession(s, t) && s' == DoTakeSession(s, t)
    case Find(t) => CanFind(s, t) && s' == DoFind(s, t)
    case TakeRoom(t) => CanTakeRoom(s, t) && s' == DoTakeRoom(s, t)
    case Snapshot(t) => CanSnapshot(s, t) && s' == DoSnapshot(s, t)
    case Deliver(t, to) => CanDeliver(s, t, to) && s' == DoDeliver(s, t, to)
    case Release(t) => CanRelease(s, t) && s' == DoRelease(s, t)
    case _ => false
  }

  /** The steps of invite up to the invited user's client. */
  ghost predicate InviteNext(s: State, a: Action, s': State) {
    match a
    case Check(t) => CanCheck(s, t) && s' == DoCheck(s, t)
    case TakeSessions(t) => CanTakeSessions(s, t) && s' == DoTakeSessions(s, t)
    case TakeChats(t) => CanTakeChats(s, t) && s' == DoTakeChats(s, t)
    case TakeInvitee(t) => CanTakeInvitee(s, t) && s' == DoTakeInvitee(s, t)
    case EnterInvitee(t) => CanEnterInvitee(s, t) && s' == DoEnterInvitee(s, t)
    case CallInvitee(t) => CanCallInvitee(s, t) && s' == DoCallInvitee(s, t)
    case _ => false
  }

  /** The steps of leaveChat, and of telling the participants. */
  ghost predicate LeaveNext(s: State, a: Action, s': State) {
    match a
    case Part(t) => CanPart(s, t) && s' == DoPart(s, t)
    case Tell(t, to) => CanTell(s, t, to) && s' == DoTell(s, t, to)
    case EndTelling(t) => CanEndTelling(s, t) && s' == DoEndTelling(s, t)
    case TestEmpty(t) => CanTestEmpty(s, t) && s' == DoTestEmpty(s, t)
    case Unlist(t) => CanUnlist(s, t) && s' == DoUnlist(s, t)
    case Forget(t) => CanForget(s, t) && s' == DoForget(s, t)
    case Close(t) => CanClose(s, t) && s' == DoClose(s, t)
    case _ => false
  }

  /** One step of the whole system. */
  ghost predicate Next(s: State, a: Action, s': State) {
    OpenNext(s, a, s') || SendNext(s, a, s') || InviteNext(s, a, s') || LeaveNext(s, a, s')
  }

  // ----- Rules -----

  /** Chat IDs are used again, and some steps go by the ID of a chat that may be gone, or carry something of it. What
      the program does is safe as far as those steps find the chat that is meant. A rule says this of one kind of
      step, in terms of the state in which the step is taken. */
  datatype Rule =
    /** removeChat removes a chat, and that chat has no participants. */
    | UnlistEmpty
    /** removeChat does not remove a chat that its creator's client has yet to file. */
    | UnlistFiled
    /** When a client files its new chat nobody else has come in. */
    | FileAlone
    /** When a client files its new chat nobody else's message is on its way to it. */
    | FileQuiet
    /** When a client files its new chat its user has not left it for good. */
    | FilePresent
    /** A client does not close a chat that its user is in again. */
    | CloseLeft
    /** An invited user is handed the key of the chat it comes into. */
    | HandKey
    /** An invited user comes into the chat that the inviting client had in view. */
    | InviteMeant

  ghost predicate Obeys(s: State, a: Action, rule: Rule) {
    match rule
    case UnlistEmpty => a.Unlist? && CanUnlist(s, a.t) ==> UnlistsEmpty(s, a.t)
    case UnlistFiled => a.Unlist? && CanUnlist(s, a.t) ==> UnlistsFiled(s, a.t)
    case FileAlone => a.FileChat? && CanFileChat(s, a.t) ==> FilesAlone(s, a.t)
    case FileQuiet => a.FileChat? && CanFileChat(s, a.t) ==> FilesQuiet(s, a.t)
    case FilePresent => a.FileChat? && CanFileChat(s, a.t) ==> FilesPresent(s, a.t)
    case CloseLeft => a.Close? && CanClose(s, a.t) ==> ClosesLeft(s, a.t)
    case HandKey => a.CallInvitee? && CanCallInvitee(s, a.t) ==> HandsKey(s, a.t)
    case InviteMeant => a.CallInvitee? && CanCallInvitee(s, a.t) ==> s.threads[a.t].op.of == s.threads[a.t].at.room
  }

  ghost predicate UnlistsEmpty(s: State, t: Tid)
    requires CanUnlist(s, t)
  {
    var id := s.threads[t].op.id;
    id in s.chats && s.chats[id] in s.rooms && s.rooms[s.chats[id]].members == {}
  }

  ghost predicate UnlistsFiled(s: State, t: Tid)
    requires CanUnlist(s, t)
  {
    var id := s.threads[t].op.id;
    id in s.chats && s.chats[id] in s.rooms ==> s.rooms[s.chats[id]].stage.Filed?
  }

  ghost predicate FilesAlone(s: State, t: Tid)
    requires CanFileChat(s, t)
  {
    var id, user := s.rooms[s.threads[t].at.room].id, s.threads[t].user;
    id in s.chats && s.chats[id] in s.rooms ==> s.rooms[s.chats[id]].Due(user) <= {user}
  }

  ghost predicate FilesQuiet(s: State, t: Tid)
    requires CanFileChat(s, t)
  {
    var id, user := s.rooms[s.threads[t].at.room].id, s.threads[t].user;
    forall t1 :: t1 in s.threads && Awaits(s.threads[t1], user, id) ==> s.threads[t1].user == user
  }

  /** The thread has a message for `user` under way. */
  ghost predicate Awaits(p: Proc, user: UserID, id: ChatID) {
    p.at.Fanning? && p.op.Send? && p.op.id == id && user in p.at.todo
  }

  ghost predicate FilesPresent(s: State, t: Tid)
    requires CanFileChat(s, t)
  {
    var id, user := s.rooms[s.threads[t].at.room].id, s.threads[t].user;
    IsIn(s, user, id) || IsGoing(s, user, id)
  }

  /** The user is in the chat that its server's map has under that ID, or is being invited into it. */
  ghost predicate IsIn(s: State, user: UserID, id: ChatID) {
    && id in s.chats && s.chats[id] in s.rooms
    && (user in s.rooms[s.chats[id]].members || s.rooms[s.chats[id]].Guest() == Some(user))
  }

  /** A thread of the user is to leave the chat, and its client has yet to close it. */
  ghost predicate IsGoing(s: State, user: UserID, id: ChatID) {
    exists t :: t in s.threads && IsExit(s.threads[t], user, id)
  }

  ghost predicate IsExit(p: Proc, user: UserID, id: ChatID) {
    p.user == user && p.op == Leave(id) && !p.at.Finished?
  }

  ghost predicate ClosesLeft(s: State, t: Tid)
    requires CanClose(s, t)
  {
    var id := s.threads[t].op.id;
    id in s.chats && s.chats[id] in s.rooms ==> !s.rooms[s.chats[id]].ShownTo(s.threads[t].user)
  }

  ghost predicate HandsKey(s: State, t: Tid)
    requires CanCallInvitee(s, t)
  {
    var room, op := s.rooms[s.threads[t].at.room], s.threads[t].op;
    room.stage.Filed? || op.invitee != room.creator ==> op.key == room.key
  }

  /** The client of `user` has, or should have, the chat of room `o`. */
  ghost predicate IsShownIn(s: State, o: RoomRef, user: UserID) {
    o in s.rooms && user in s.rooms[o].members && (s.rooms[o].stage.Filed? || user != s.rooms[o].creator)
  }

  // ----- Runs -----

  ghost predicate Initial(s: State) {
    && (forall u :: u in s.sessions ==> s.sessions[u] == Session(map[], None))
    && (forall u :: u in s.clients ==> s.clients[u] == map[])
    && (forall u :: u in s.inbox ==> s.inbox[u] == [])
    && s.clients.Keys == s.sessions.Keys && s.inbox.Keys == s.sessions.Keys
    && s.chats == map[] && s.rooms == map[] && s.threads == map[] && s.clock == 0 && !s.dropped
  }

  /** A run: where it starts, and the steps it takes from there. */
  datatype Run = Start(state: State) | Then(before: Run, action: Action, state: State)

  ghost predicate IsRun(r: Run) {
    match r
    case Start(s) => Initial(s)
    case Then(before, a, s) => IsRun(before) && Next(before.state, a, s)
  }

  /** Every step of the run obeys every one of the rules. */
  ghost predicate Along(r: Run, rules: set<Rule>) {
    match r
    case Start(_) => true
    case Then(before, a, _) => Along(before, rules) && forall rule :: rule in rules ==> Obeys(before.state, a, rule)
  }
}
