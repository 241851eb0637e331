/** The objects of one server: its registries, the sessions of its users and the chats it owns
    (src/server/server.cpp, src/server/session.cpp, src/server/chat.cpp, src/server/participant.cpp), with the
    operations that touch one object only. */
module Servers {
  import opened Identifiers
  import opened ClientBackend

  /** The exceptions that cross an interface. `Transport` is any Ice exception the interface does not declare. */
  datatype Exn =
    | Authentication | UserHandling | SessionError | MessageError
    | MessageCallback | Participation | ChatError | InterServer | Transport

  datatype Outcome = Done | Threw(exn: Exn)

  datatype Participant =
    | LocalParticipant(self: UserID, proxy: Client)
    | RemoteParticipant(self: UserID, host: Host)

  /** What a session holds for a chat: the chat of its own server, or a stand-in for one elsewhere. */
  datatype Chat = Local(chat: LocalChat) | Remote(chatID: ChatID)

  class LocalChat {
    const chatID: ChatID
    var participants: map<UserID, Participant>

    constructor (chatID: ChatID, user: UserID, callback: Client)
      ensures this.chatID == chatID && participants == map[user := LocalParticipant(user, callback)]
    {
      this.chatID := chatID;
      participants := map[user := LocalParticipant(user, callback)];
    }
  }

  class Session {
    const self: UserID
    const callback: Client
    var chats: map<ChatID, Chat>

    constructor (self: UserID, callback: Client)
      ensures this.self == self && this.callback == callback && chats == map[]
    {
      this.self, this.callback, this.chats := self, callback, map[];
    }

    method AddChat(chatID: ChatID, chat: Chat) returns (r: Outcome)
      modifies this`chats
      ensures r == if chatID in old(chats) then Threw(UserHandling) else Done
      ensures chats == if r.Done? then old(chats)[chatID := chat] else old(chats)
    {
      if chatID in chats {
        return Threw(UserHandling);
      }
      chats := chats[chatID := chat];
      return Done;
    }
  }

  class Server {
    const hostname: Host
    var sessions: map<UserID, Session>
    var chats: map<ChatID, LocalChat>

    constructor (hostname: Host)
      ensures this.hostname == hostname && sessions == map[] && chats == map[]
    {
      this.hostname, sessions, chats := hostname, map[], map[];
    }

    method AddSession(user: UserID, session: Session) returns (ok: bool)
      modifies this`sessions
      ensures ok <==> user !in old(sessions)
      ensures ok ==> sessions == old(sessions)[user := session]
      ensures !ok ==> unchanged(this)
    {
      if user in sessions {
        return false;
      }
      sessions := sessions[user := session];
      return true;
    }

    method RemoveSession(user: UserID) returns (r: Outcome)
      modifies this`sessions
      ensures r == if user in old(sessions) then Done else Threw(UserHandling)
      ensures sessions == old(sessions) - {user}
    {
      if user !in sessions {
        return Threw(UserHandling);
      }
      sessions := sessions - {user};
      return Done;
    }

    /** Takes the least counter whose name is free; there is at most one probe more than there are chats. */
    method CreateLocalChat(user: UserID, callback: Client) returns (chat: LocalChat)
      modifies this`chats
      ensures chat.chatID == NextName(old(chats).Keys, hostname) && chat.chatID !in old(chats)
      ensures fresh(chat) && chats == old(chats)[chat.chatID := chat]
      ensures chat.participants == map[user := LocalParticipant(user, callback)]
    {
      var i := 0;
      SomeNameIsFree(chats.Keys, hostname, i);
      while ChatName(i, hostname) in chats
        invariant forall j: nat :: j < i ==> ChatName(j, hostname) in chats
        invariant chats == old(chats)
        invariant i <= |chats|
        decreases |chats| - i
      {
        i := i + 1;
        SomeNameIsFree(chats.Keys, hostname, i);
      }
      NextNameIs(chats.Keys, hostname, i);
      chat := new LocalChat(ChatName(i, hostname), user, callback);
      chats := chats[chat.chatID := chat];
    }

    method AddChatTo(user: UserID, chatID: ChatID) returns (r: Outcome)
      modifies if user in sessions then {sessions[user]} else {}
      ensures r == if user in sessions && chatID in chats && chatID !in old(sessions[user].chats)
                   then Done else Threw(UserHandling)
      ensures user in sessions ==>
        sessions[user].chats == if r.Done? then old(sessions[user].chats)[chatID := Local(chats[chatID])]
                                else old(sessions[user].chats)
    {
      if user !in sessions {
        return Threw(UserHandling);
      }
      if chatID !in chats {
        return Threw(UserHandling);
      }
      r := sessions[user].AddChat(chatID, Local(chats[chatID]));
    }

    /** `reached` says whether the stand-in's constructor gets a proxy for the chat's server. */
    method AddRemoteChatTo(user: UserID, chatID: ChatID, reached: bool) returns (r: Outcome)
      modifies if user in sessions then {sessions[user]} else {}
      ensures r == if user in sessions && !reached then Threw(Transport)
                   else if user in sessions && chatID !in old(sessions[user].chats) then Done
                   else Threw(UserHandling)
      ensures user in sessions ==>
        sessions[user].chats == if r.Done? then old(sessions[user].chats)[chatID := Remote(chatID)]
                                else old(sessions[user].chats)
    {
      if user !in sessions {
        return Threw(UserHandling);
      }
      if !reached {
        return Threw(Transport);
      }
      r := sessions[user].AddChat(chatID, Remote(chatID));
    }

    method RemoveChat(chatID: ChatID) returns (r: Outcome)
      modifies this`chats
      ensures r == if chatID in old(chats) then Done else Threw(UserHandling)
      ensures chats == old(chats) - {chatID}
    {
      if chatID !in chats {
        return Threw(UserHandling);
      }
      chats := chats - {chatID};
      return Done;
    }
  }
}
