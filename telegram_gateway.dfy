/** The back end's telegram gateway
    (backend/src/app/api/modules/telegram/gateway.py): single-row updates
    and lookups on the users table, as seen through the session. Its
    `get_chat_id_by_user_id` is the same query as the older service's,
    `LegacyTelegramGateway.Gateway.GetChatIdByUserId`. */
module TelegramGateway {
  import opened Wrappers
  import opened Users

  /** `get_users_with_telegram`'s filter: linked (chat id not NULL),
      active, and, for daily reports, opted in. */
  predicate Qualifies(u: User, dailyOnly: bool) {
    u.telegramChatId.Some? && u.isActive && (!dailyOnly || u.telegramDailyEnabled)
  }

  class Gateway {
    const session: Session

    constructor (session: Session)
      ensures this.session == session
    {
      this.session := session;
    }

    /** Stores `newToken` (the caller's `uuid4()`) as the user's token and
        returns it. */
    method SetTelegramToken(userId: UserId, newToken: string) returns (token: string)
      modifies session
      ensures session.committed == old(session.committed)
      ensures token == newToken
      ensures session.users == UpdateWhere(old(session.users), userId, SetTokenRow(Some(newToken)))
    {
      session.users := UpdateWhere(session.users, userId, SetTokenRow(Some(newToken)));
      token := newToken;
    }

    method GetUserByToken(token: string) returns (r: Lookup)
      requires WellKeyed(session.users)
      ensures LookupOf(r, session.users, RowsWhere(session.users, HoldsToken(token)))
    {
      r := SelectOne(session.users, HoldsToken(token));
    }

    method GetUserByChatId(chatId: int) returns (r: Lookup)
      requires WellKeyed(session.users)
      ensures LookupOf(r, session.users, RowsWhere(session.users, HoldsChat(chatId)))
    {
      r := SelectOne(session.users, HoldsChat(chatId));
    }

    method ClearToken(userId: UserId)
      modifies session
      ensures session.committed == old(session.committed)
      ensures session.users == UpdateWhere(old(session.users), userId, SetTokenRow(None))
    {
      session.users := UpdateWhere(session.users, userId, SetTokenRow(None));
    }

    /** Links the chat; when another row already holds the chat id the
        unique constraint rejects the statement (`IntegrityError`) and the
        table is left as it was. */
    method UpdateTelegramChatId(userId: UserId, chatId: int, username: Option<string>, locale: Option<string>)
      returns (integrityError: bool)
      requires WellKeyed(session.users)
      modifies session
      ensures session.committed == old(session.committed)
      ensures integrityError <==> userId in old(session.users) && ChatTakenByOther(old(session.users), userId, chatId)
      ensures session.users == if integrityError then old(session.users)
                       else UpdateWhere(old(session.users), userId, LinkRow(chatId, username, locale))
    {
      var holder := SelectOne(session.users, HoldsChat(chatId));
      integrityError := userId in session.users && holder != NoRow && !(holder.OneRow? && holder.user.id == userId);
      ghost var rows := RowsWhere(session.users, HoldsChat(chatId));
      if ChatTakenByOther(session.users, userId, chatId) {
        ghost var o :| o in session.users && o != userId && session.users[o].telegramChatId == Some(chatId);
        assert o in rows;
      }
      if holder.OneRow? {
        assert holder.user.id in rows;
      } else if holder == MultipleRows {
        ghost var a, b :| a in rows && b in rows && a != b;
        assert a in rows && b in rows;
      }
      if !integrityError {
        session.users := UpdateWhere(session.users, userId, LinkRow(chatId, username, locale));
      }
    }

    /** Every qualifying row exactly once, in no particular order. */
    method GetUsersWithTelegram(dailyOnly: bool) returns (rs: seq<User>)
      requires WellKeyed(session.users)
      ensures forall u :: u in rs <==> u.id in session.users && session.users[u.id] == u && Qualifies(u, dailyOnly)
      ensures forall i, j :: 0 <= i < j < |rs| ==> rs[i].id != rs[j].id
    {
      rs := [];
      var remaining := session.users.Keys;
      while remaining != {}
        invariant remaining <= session.users.Keys
        invariant forall u :: u in rs <==> u.id in session.users.Keys - remaining && session.users[u.id] == u && Qualifies(u, dailyOnly)
        invariant forall i, j :: 0 <= i < j < |rs| ==> rs[i].id != rs[j].id
        decreases remaining
      {
        var id :| id in remaining;
        remaining := remaining - {id};
        if Qualifies(session.users[id], dailyOnly) {
          rs := rs + [session.users[id]];
        }
      }
    }

    method ToggleDaily(userId: UserId, enabled: bool)
      modifies session
      ensures session.committed == old(session.committed)
      ensures session.users == UpdateWhere(old(session.users), userId, DailyRow(enabled))
    {
      session.users := UpdateWhere(session.users, userId, DailyRow(enabled));
    }

    method LogoutUser(userId: UserId)
      modifies session
      ensures session.committed == old(session.committed)
      ensures session.users == UpdateWhere(old(session.users), userId, LogoutRow())
    {
      session.users := UpdateWhere(session.users, userId, LogoutRow());
    }
  }

  /** Logging out touches only the chat id, the username and the token of
      that one row. */
  lemma LogoutUserFrame(t: Table, userId: UserId)
    requires userId in t
    ensures var u, v := t[userId], UpdateWhere(t, userId, LogoutRow())[userId];
      && v.telegramChatId == None && v.telegramUsername == None && v.telegramToken == None
      && v.(telegramChatId := u.telegramChatId, telegramUsername := u.telegramUsername,
            telegramToken := u.telegramToken) == u
  {
  }

  /** Linking sets the chat id, overwrites the username (None when none is
      given), clears the token and changes the locale only for a non-empty
      one; nothing else in the row moves. */
  lemma LinkFrame(t: Table, userId: UserId, chatId: int, username: Option<string>, locale: Option<string>)
    requires userId in t
    ensures var u, v := t[userId], UpdateWhere(t, userId, LinkRow(chatId, username, locale))[userId];
      && v.telegramChatId == Some(chatId) && v.telegramUsername == username && v.telegramToken == None
      && (v.locale != u.locale ==> locale.Some? && locale.value != "" && v.locale == locale)
      && v.(telegramChatId := u.telegramChatId, telegramUsername := u.telegramUsername,
            telegramToken := u.telegramToken, locale := u.locale) == u
  {
  }
}
