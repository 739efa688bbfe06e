/**
 * The record-keeping of `models.py`: get-or-create of the chat behind a
 * group, channel or user, the session write that stamps its activity time,
 * and the read-through session cache. The ORM tables are maps keyed by
 * primary key.
 */
module Persistence {
  import opened Wrappers
  import opened Text

  /** A `Chat` row (join date, time zone and language left out). */
  datatype ChatRow = ChatRow(title: Option<string>, username: Option<string>, isStaff: bool, kind: string)

  /** A `TgUser` row: its Django user's username, the bot flag and the attached chat. */
  datatype UserRow = UserRow(djUsername: string, isBot: bool, chat: Option<int>)

  /** A `Session` row: the current state name and the last activity time. */
  datatype SessionRow = SessionRow(state: string, lastActivity: int)

  /** The chat type `Group.custom_save` creates. */
  function GroupKind(isSupergroup: bool): string {
    if isSupergroup then "supergroup" else "group"
  }

  /** Whether the shared get/update-title/create step writes the chat row. */
  predicate ChatWritten(chats: map<int, ChatRow>, id: int, title: Option<string>) {
    id !in chats || chats[id].title != title
  }

  /**
   * The chat table after the first half of both `custom_save`s: an existing
   * chat gets the new title, a missing one is created with the given type.
   */
  function UpsertChat(chats: map<int, ChatRow>, id: int, title: Option<string>, username: Option<string>, kind: string): map<int, ChatRow> {
    if id in chats then
      (if chats[id].title != title then chats[id := chats[id].(title := title)] else chats)
    else chats[id := ChatRow(title, username, false, kind)]
  }

  /**
   * Only the title of an existing chat ever changes; its type, username and
   * staff flag stay, and no other chat is touched.
   */
  lemma UpsertChatEffect(chats: map<int, ChatRow>, id: int, title: Option<string>, username: Option<string>, kind: string)
    ensures var r := UpsertChat(chats, id, title, username, kind);
      && r.Keys == chats.Keys + {id}
      && r[id].title == title
      && (id in chats ==> r[id] == chats[id].(title := title))
      && (id !in chats ==> r[id] == ChatRow(title, username, false, kind))
      && (forall k :: k in chats && k != id ==> r[k] == chats[k])
      && (!ChatWritten(chats, id, title) ==> r == chats)
  {
  }

  /** Saving the same chat twice changes nothing the second time, whatever type the second call asks for. */
  lemma UpsertChatIdempotent(chats: map<int, ChatRow>, id: int, title: Option<string>, username: Option<string>, kind: string, kind2: string)
    ensures var once := UpsertChat(chats, id, title, username, kind);
      && !ChatWritten(once, id, title)
      && UpsertChat(once, id, title, username, kind2) == once
  {
  }

  /** The chat a user without one gets: private, titled and named after the Django username. */
  function PrivateChat(username: string): ChatRow {
    ChatRow(Some(username), Some(username), false, "private")
  }

  /** `Chat.objects.get_or_create(id=.., title=.., username=.., type='private')` matches on all four. */
  predicate MatchesPrivate(row: ChatRow, username: string) {
    row.title == Some(username) && row.username == Some(username) && row.kind == "private"
  }

  /**
   * `TgUser.save`: the chat and user tables afterwards. A user without a chat
   * gets one by get-or-create; a chat with the user's id that does not match
   * the lookup cannot be created again and raises IntegrityError.
   */
  function SaveUser(chats: map<int, ChatRow>, users: map<int, UserRow>, id: int, djUsername: string, isBot: bool, chat: Option<int>)
    : Result<(map<int, ChatRow>, map<int, UserRow>)>
  {
    if chat.Some? then Ok((chats, users[id := UserRow(djUsername, isBot, chat)]))
    else if id in chats && !MatchesPrivate(chats[id], djUsername) then Err(IntegrityError)
    else
      var chats' := if id in chats then chats else chats[id := PrivateChat(djUsername)];
      Ok((chats', users[id := UserRow(djUsername, isBot, Some(id))]))
  }

  /** After a successful save the user has a chat, and that chat is in the chat table when it was just attached. */
  lemma SavedUserHasChat(chats: map<int, ChatRow>, users: map<int, UserRow>, id: int, djUsername: string, isBot: bool, chat: Option<int>)
    ensures var r := SaveUser(chats, users, id, djUsername, isBot, chat);
      && (r.Err? <==> chat.None? && id in chats && !MatchesPrivate(chats[id], djUsername))
      && (r.Ok? ==>
            && id in r.value.1 && r.value.1[id].chat.Some?
            && (chat.Some? ==> r.value.1[id].chat == chat && r.value.0 == chats)
            && (chat.None? ==> r.value.1[id].chat == Some(id) && id in r.value.0 && MatchesPrivate(r.value.0[id], djUsername))
            && (forall k :: k in users && k != id ==> k in r.value.1 && r.value.1[k] == users[k]))
  {
  }

  /** `"%s%s" % (chat.id, user.id)`: the cache key of a session. */
  function SessionKey(chatId: int, userId: int): string {
    IntToString(chatId) + IntToString(userId)
  }

  /** Chat 1 with user 23 and chat 12 with user 3 share one cache key. */
  lemma SessionKeyCollides()
    ensures SessionKey(1, 23) == SessionKey(12, 3)
  {
    assert IntToString(1) == "1";
    assert IntToString(12) == "12";
    assert IntToString(3) == "3";
    assert IntToString(23) == "23";
  }

  /** The key with a separator between the two ids. */
  function SessionKeyFixed(chatId: int, userId: int): string {
    IntToString(chatId) + "::" + IntToString(userId)
  }

  /** Distinct (chat, user) pairs get distinct separated keys. */
  lemma SessionKeyFixedInjective(c1: int, u1: int, c2: int, u2: int)
    requires SessionKeyFixed(c1, u1) == SessionKeyFixed(c2, u2)
    ensures c1 == c2 && u1 == u2
  {
    IntToStringNoColon(c1);
    IntToStringNoColon(u1);
    IntToStringNoColon(c2);
    IntToStringNoColon(u2);
    SplitTwo(IntToString(c1), IntToString(u1));
    SplitTwo(IntToString(c2), IntToString(u2));
    IntToStringInjective(c1, c2);
    IntToStringInjective(u1, u2);
  }

  /** The database: one map per table, plus the order in which chat rows were written. */
  class Db {
    var chats: map<int, ChatRow>
    /** The chats that have a Group row (the relation is one-to-one). */
    var groups: set<int>
    /** The chats that have a Channel row. */
    var channels: set<int>
    var users: map<int, UserRow>
    /** Sessions by (chat id, user id), which the model declares unique together. */
    var sessions: map<(int, int), SessionRow>
    var chatWrites: seq<int>

    constructor ()
      ensures chats == map[] && groups == {} && channels == {} && users == map[] && sessions == map[] && chatWrites == []
    {
      chats := map[];
      groups := {};
      channels := {};
      users := map[];
      sessions := map[];
      chatWrites := [];
    }

    /** The shared first half of both `custom_save`s. */
    method SaveChat(id: int, title: Option<string>, username: Option<string>, kind: string)
      modifies this
      ensures chats == UpsertChat(old(chats), id, title, username, kind)
      ensures chatWrites == old(chatWrites) + if ChatWritten(old(chats), id, title) then [id] else []
      ensures groups == old(groups) && channels == old(channels) && users == old(users) && sessions == old(sessions)
    {
      if id in chats {
        var chat := chats[id];
        if chat.title != title {
          chats := chats[id := chat.(title := title)];
          chatWrites := chatWrites + [id];
        }
      } else {
        chats := chats[id := ChatRow(title, username, false, kind)];
        chatWrites := chatWrites + [id];
      }
    }

    /** `Group.custom_save`; the group is returned as the id of its chat. `is_staff` is accepted and unused. */
    method GroupCustomSave(chatId: int, title: Option<string>, username: Option<string>, isStaff: bool, isSupergroup: bool)
      returns (group: int)
      modifies this
      ensures group == chatId
      ensures chats == UpsertChat(old(chats), chatId, title, username, GroupKind(isSupergroup))
      ensures chatWrites == old(chatWrites) + if ChatWritten(old(chats), chatId, title) then [chatId] else []
      ensures groups == old(groups) + {chatId}
      ensures channels == old(channels) && users == old(users) && sessions == old(sessions)
    {
      var kind := if isSupergroup then "supergroup" else "group";
      SaveChat(chatId, title, username, kind);
      if chatId !in groups {
        groups := groups + {chatId};
      }
      group := chatId;
    }

    /** `Channel.custom_save`. */
    method ChannelCustomSave(chatId: int, title: Option<string>, username: Option<string>) returns (channel: int)
      modifies this
      ensures channel == chatId
      ensures chats == UpsertChat(old(chats), chatId, title, username, "channel")
      ensures chatWrites == old(chatWrites) + if ChatWritten(old(chats), chatId, title) then [chatId] else []
      ensures channels == old(channels) + {chatId}
      ensures groups == old(groups) && users == old(users) && sessions == old(sessions)
    {
      SaveChat(chatId, title, username, "channel");
      if chatId !in channels {
        channels := channels + {chatId};
      }
      channel := chatId;
    }
  }

  /** A Telegram user object; `chat` is filled in by `Save`. */
  class TgUser {
    const id: int
    const djUsername: string
    const isBot: bool
    var chat: Option<int>

    constructor (id: int, djUsername: string, isBot: bool, chat: Option<int>)
      ensures this.id == id && this.djUsername == djUsername && this.isBot == isBot && this.chat == chat
    {
      this.id := id;
      this.djUsername := djUsername;
      this.isBot := isBot;
      this.chat := chat;
    }

    /** `TgUser.save`. */
    method Save(db: Db) returns (r: Result<()>)
      modifies this, db
      ensures match SaveUser(old(db.chats), old(db.users), id, djUsername, isBot, old(chat))
        case Err(e) => r == Err(e) && chat == old(chat) && db.chats == old(db.chats) && db.users == old(db.users)
        case Ok((chats', users')) =>
          && r == Ok(()) && db.chats == chats' && db.users == users'
          && chat.Some? && users'[id].chat == chat
      ensures db.groups == old(db.groups) && db.channels == old(db.channels) && db.sessions == old(db.sessions)
      ensures db.chatWrites == old(db.chatWrites) + if old(chat).None? && id !in old(db.chats) then [id] else []
    {
      if chat.None? {
        if id in db.chats {
          if !MatchesPrivate(db.chats[id], djUsername) {
            return Err(IntegrityError);
          }
        } else {
          db.chats := db.chats[id := PrivateChat(djUsername)];
          db.chatWrites := db.chatWrites + [id];
        }
        chat := Some(id);
      }
      db.users := db.users[id := UserRow(djUsername, isBot, chat)];
      r := Ok(());
    }
  }

  /** A request to the deferred saver (`save_after`): the state it will write and whether it is forced. */
  datatype SaveRequest = SaveRequest(state: string, forceUpdate: bool)

  /** A loaded session; the cache hands out the same object until it is evicted. */
  class Session {
    const chatId: int
    const userId: int
    var state: string
    var lastActivity: int
    var saveRequests: seq<SaveRequest>

    constructor (chatId: int, userId: int, row: SessionRow)
      ensures this.chatId == chatId && this.userId == userId
      ensures state == row.state && lastActivity == row.lastActivity && saveRequests == []
    {
      this.chatId := chatId;
      this.userId := userId;
      state := row.state;
      lastActivity := row.lastActivity;
      saveRequests := [];
    }

    /** `Session.save`, with `datetime.utcnow()` passed in as `now`. */
    method Save(db: Db, now: int)
      modifies this, db
      ensures lastActivity == now && state == old(state) && saveRequests == old(saveRequests)
      ensures db.sessions == old(db.sessions)[(chatId, userId) := SessionRow(old(state), now)]
      ensures db.chats == old(db.chats) && db.groups == old(db.groups) && db.channels == old(db.channels)
      ensures db.users == old(db.users) && db.chatWrites == old(db.chatWrites)
    {
      lastActivity := now;
      db.sessions := db.sessions[(chatId, userId) := SessionRow(state, lastActivity)];
    }

    /** `save_after(force_update)`: the write is queued for the saver. */
    method SaveAfter(forceUpdate: bool)
      modifies this
      ensures saveRequests == old(saveRequests) + [SaveRequest(state, forceUpdate)]
      ensures state == old(state) && lastActivity == old(lastActivity)
    {
      saveRequests := saveRequests + [SaveRequest(state, forceUpdate)];
    }
  }

  /** The process-wide cache of `Runtime`, for the "Session" model. */
  class Runtime {
    var cache: map<string, Session>

    constructor ()
      ensures cache == map[]
    {
      cache := map[];
    }

    /** Every cached session sits under the key `keyOf` gives its own chat and user. */
    predicate Coherent(keyOf: (int, int) -> string)
      reads this
    {
      forall k :: k in cache ==> keyOf(cache[k].chatId, cache[k].userId) == k
    }

    /**
     * The read-through lookup under `key`: a hit is returned without reading
     * the table, a miss loads the (chat, user) row and caches the new object.
     */
    method CacheGetBy(db: Db, key: string, chatId: int, userId: int) returns (r: Result<Session>)
      modifies this
      ensures key in old(cache) ==> r == Ok(old(cache)[key]) && cache == old(cache)
      ensures key !in old(cache) && (chatId, userId) !in db.sessions ==> r == Err(DoesNotExist) && cache == old(cache)
      ensures key !in old(cache) && (chatId, userId) in db.sessions ==>
        && r.Ok? && fresh(r.value) && cache == old(cache)[key := r.value]
        && r.value.chatId == chatId && r.value.userId == userId
        && r.value.state == db.sessions[(chatId, userId)].state
    {
      if key in cache {
        return Ok(cache[key]);
      }
      if (chatId, userId) !in db.sessions {
        return Err(DoesNotExist);
      }
      var s := new Session(chatId, userId, db.sessions[(chatId, userId)]);
      cache := cache[key := s];
      r := Ok(s);
    }

    /**
     * `Session.cache_get`. With a coherent cache the session returned has
     * the same key as the pair asked for, which is not the same pair when the
     * decimal ids run together.
     */
    method CacheGet(db: Db, chatId: int, userId: int) returns (r: Result<Session>)
      modifies this
      ensures SessionKey(chatId, userId) in old(cache) ==> r == Ok(old(cache)[SessionKey(chatId, userId)]) && cache == old(cache)
      ensures SessionKey(chatId, userId) !in old(cache) ==>
        if (chatId, userId) in db.sessions then
          r.Ok? && fresh(r.value) && r.value.chatId == chatId && r.value.userId == userId && cache == old(cache)[SessionKey(chatId, userId) := r.value]
        else r == Err(DoesNotExist) && cache == old(cache)
      ensures old(Coherent(SessionKey)) ==> Coherent(SessionKey)
      ensures old(Coherent(SessionKey)) && r.Ok? ==> SessionKey(r.value.chatId, r.value.userId) == SessionKey(chatId, userId)
    {
      r := CacheGetBy(db, SessionKey(chatId, userId), chatId, userId);
    }

    /** The lookup under the separated key: a coherent cache always returns the session of the pair asked for. */
    method CacheGetFixed(db: Db, chatId: int, userId: int) returns (r: Result<Session>)
      modifies this
      ensures old(Coherent(SessionKeyFixed)) ==> Coherent(SessionKeyFixed)
      ensures old(Coherent(SessionKeyFixed)) && r.Ok? ==> r.value.chatId == chatId && r.value.userId == userId
      ensures r.Err? ==> r.error == DoesNotExist && (chatId, userId) !in db.sessions
    {
      r := CacheGetBy(db, SessionKeyFixed(chatId, userId), chatId, userId);
      if r.Ok? && old(Coherent(SessionKeyFixed)) {
        SessionKeyFixedInjective(r.value.chatId, r.value.userId, chatId, userId);
      }
    }
  }

  /**
   * With the key as written, a coherent cache that holds the session of chat
   * 1 and user 23 hands that same session out for chat 12 and user 3.
   */
  lemma CollidingLookupServesOtherConversation(cache: map<string, Session>, s: Session)
    requires s.chatId == 1 && s.userId == 23 && SessionKey(1, 23) in cache && cache[SessionKey(1, 23)] == s
    ensures SessionKey(12, 3) in cache && cache[SessionKey(12, 3)] == s && s.chatId != 12
  {
    SessionKeyCollides();
  }
}
