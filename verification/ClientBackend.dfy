/** The client's own picture of its chats: src/client/backend/chat.cpp and the callbacks of
    src/client/backend/session.cpp. */
module ClientBackend {
  import opened Wrappers
  import opened Identifiers
  import opened Security
  import opened Rooms

  /** What a client shows of one chat. */
  datatype View = View(users: set<UserID>, key: Bytes, log: seq<Message>)

  /** What a chat tells its participants. */
  datatype News =
    | HasJoined(who: UserID)
    | HasLeft(who: UserID)
    | HasSaid(cipher: BlockCipher, sender: UserID, message: Bytes)

  /** What a client makes of it: see ClientChat and Client below. */
  ghost function Heard(v: View, news: News): View {
    match news
    case HasJoined(who) => v.(users := v.users + {who})
    case HasLeft(who) => v.(users := v.users - {who})
    case HasSaid(cipher, sender, message) =>
      var text := DecryptAES(cipher, v.key, message);
      if sender in v.users && text.Success? then v.(log := v.log + [Message(sender, text.value)]) else v
  }

  /** What became of a message that reached a chat object. */
  datatype Receipt = NotInChat | Undecryptable | Logged

  class ClientChat {
    const owner: Client
    const chatID: ChatID
    const key: Bytes
    var users: set<UserID>
    var log: seq<Message>

    constructor (owner: Client, chatID: ChatID, key: Bytes)
      ensures this.owner == owner && this.chatID == chatID && this.key == key
      ensures users == {owner.user} && log == []
    {
      this.owner, this.chatID, this.key := owner, chatID, key;
      users, log := {owner.user}, [];
    }

    ghost function Now(): View
      reads this
    {
      View(users, key, log)
    }

    method AddChatParticipant(participant: UserID)
      modifies this`users
      ensures users == old(users) + {participant}
    {
      users := users + {participant};
    }

    method RemoveChatParticipant(participant: UserID)
      modifies this`users
      ensures users == old(users) - {participant}
    {
      if participant !in users {
        return;
      }
      users := users - {participant};
    }

    method ReceiveMessage(cipher: BlockCipher, participant: UserID, message: Bytes) returns (receipt: Receipt)
      modifies this`log
      ensures receipt.NotInChat? <==> participant !in users
      ensures receipt.Logged? <==> participant in users && DecryptAES(cipher, key, message).Success?
      ensures log == if receipt.Logged?
                     then old(log) + [Message(participant, DecryptAES(cipher, key, message).value)]
                     else old(log)
    {
      if participant !in users {
        return NotInChat;
      }
      match DecryptAES(cipher, key, message)
      case Failure(_) => receipt := Undecryptable;
      case Success(text) =>
        log := log + [Message(participant, text)];
        receipt := Logged;
    }
  }

  /** SessionPrivate: the client process of one login. */
  class Client {
    const user: UserID
    const keys: KeyPair
    const cipher: BlockCipher
    var chats: map<ChatID, ClientChat>

    constructor (user: UserID, keys: KeyPair, cipher: BlockCipher)
      ensures this.user == user && this.keys == keys && this.cipher == cipher && chats == map[]
    {
      this.user, this.keys, this.cipher := user, keys, cipher;
      chats := map[];
    }

    /** The callback that opens a chat. `usersFound` says whether every user named could be retrieved. */
    method InitChat(others: set<UserID>, chatID: ChatID, sealedKey: Bytes, usersFound: bool) returns (ok: bool)
      modifies this`chats
      ensures ok <==> DecryptRSA(cipher, keys, sealedKey).Success? && chatID !in old(chats) && usersFound
      ensures !ok ==> chats == old(chats)
      ensures ok ==> chatID in chats && fresh(chats[chatID]) && chats == old(chats)[chatID := chats[chatID]]
      ensures ok ==> chats[chatID].owner == this && chats[chatID].chatID == chatID
      ensures ok ==> DecryptRSA(cipher, keys, sealedKey) == Success(chats[chatID].key)
      ensures ok ==> chats[chatID].users == others + {user} && chats[chatID].log == []
    {
      var sessionKey := DecryptRSA(cipher, keys, sealedKey);
      if sessionKey.Failure? || chatID in chats {
        return false;
      }
      var chat := new ClientChat(this, chatID, sessionKey.value);
      var todo := others;
      while todo != {}
        invariant todo <= others
        invariant chats == old(chats)
        invariant chat.users == others - todo + {user} && chat.log == []
        decreases todo
      {
        var other :| other in todo;
        chat.AddChatParticipant(other);
        todo := todo - {other};
      }
      if !usersFound {
        return false;
      }
      chats := chats[chatID := chat];
      return true;
    }

    method AddChatParticipant(participant: UserID, chatID: ChatID) returns (ok: bool)
      modifies if chatID in chats then {chats[chatID]} else {}
      ensures ok <==> chatID in chats
      ensures ok ==> chats[chatID].users == old(chats[chatID].users) + {participant}
      ensures ok ==> chats[chatID].log == old(chats[chatID].log)
    {
      if chatID !in chats {
        return false;
      }
      chats[chatID].AddChatParticipant(participant);
      return true;
    }

    method RemoveChatParticipant(participant: UserID, chatID: ChatID) returns (ok: bool)
      modifies if chatID in chats then {chats[chatID]} else {}
      ensures ok <==> chatID in chats
      ensures ok ==> chats[chatID].users == old(chats[chatID].users) - {participant}
      ensures ok ==> chats[chatID].log == old(chats[chatID].log)
    {
      if chatID !in chats {
        return false;
      }
      chats[chatID].RemoveChatParticipant(participant);
      return true;
    }

    method AppendMessageToChat(message: Bytes, chatID: ChatID, participant: UserID) returns (ok: bool)
      modifies if chatID in chats then {chats[chatID]} else {}
      ensures ok <==> chatID in chats
      ensures ok ==> chats[chatID].users == old(chats[chatID].users)
      ensures ok ==>
        var text := DecryptAES(cipher, chats[chatID].key, message);
        chats[chatID].log == if participant in chats[chatID].users && text.Success?
                             then old(chats[chatID].log) + [Message(participant, text.value)]
                             else old(chats[chatID].log)
    {
      if chatID !in chats {
        return false;
      }
      var _ := chats[chatID].ReceiveMessage(cipher, participant, message);
      return true;
    }

    /** The callback that brings the news: addChatParticipant, removeChatParticipant or appendMessageToChat. */
    method Callback(news: News, chatID: ChatID) returns (ok: bool)
      requires news.HasSaid? ==> news.cipher == cipher
      modifies if chatID in chats then {chats[chatID]} else {}
      ensures ok <==> chatID in chats
      ensures ok ==> chats[chatID].Now() == Heard(old(chats[chatID].Now()), news)
    {
      match news
      case HasJoined(who) => ok := AddChatParticipant(who, chatID);
      case HasLeft(who) => ok := RemoveChatParticipant(who, chatID);
      case HasSaid(_, sender, message) => ok := AppendMessageToChat(message, chatID, sender);
    }

    /** The last step of runInitChat: the server has named the chat, the client made its key. */
    method ChatCreated(chatID: ChatID, key: Bytes)
      modifies this`chats
      ensures chatID in chats && fresh(chats[chatID]) && chats == old(chats)[chatID := chats[chatID]]
      ensures chats[chatID].owner == this && chats[chatID].chatID == chatID && chats[chatID].key == key
      ensures chats[chatID].users == {user} && chats[chatID].log == []
    {
      var chat := new ClientChat(this, chatID, key);
      chats := chats[chatID := chat];
      chat.AddChatParticipant(user);
    }

    /** leaveChatCompletedSlot */
    method ChatLeft(chatID: ChatID)
      modifies this`chats
      ensures chats == old(chats) - {chatID}
    {
      chats := chats - {chatID};
    }
  }
}
