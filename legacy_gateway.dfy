/** The older service's telegram gateway
    (src/app/api/modules/telegram/gateway.py): the same single-row updates
    as the back end's, without the locale, the daily flag and the
    subscriber listing. */
module LegacyTelegramGateway {
  import opened Wrappers
  import opened Users

  class Gateway {
    const session: Session

    constructor (session: Session)
      ensures this.session == session
    {
      this.session := session;
    }

    /** Stores `newToken` (the caller's `uuid4()`) as the user's token and
        returns it. */
    method SetTelegramToken(userId: UserId, newToken: string) returns (token: string)
      modifies session
      ensures session.committed == old(session.committed)
      ensures token == newToken
      ensures session.users == UpdateWhere(old(session.users), userId, SetTokenRow(Some(newToken)))
    {
      session.users := UpdateWhere(session.users, userId, SetTokenRow(Some(newToken)));
      token := newToken;
    }

    method GetUserByToken(token: string) returns (r: Lookup)
      requires WellKeyed(session.users)
      ensures r == Find(session.users, HoldsToken(token))
    {
      r := SelectOne(session.users, HoldsToken(token));
      LookupIsFind(r, session.users, HoldsToken(token));
    }

    method GetUserByChatId(chatId: int) returns (r: Lookup)
      requires WellKeyed(session.users)
      ensures r == Find(session.users, HoldsChat(chatId))
    {
      r := SelectOne(session.users, HoldsChat(chatId));
      LookupIsFind(r, session.users, HoldsChat(chatId));
    }

    method ClearToken(userId: UserId)
      modifies session
      ensures session.committed == old(session.committed)
      ensures session.users == UpdateWhere(old(session.users), userId, SetTokenRow(None))
    {
      session.users := UpdateWhere(session.users, userId, SetTokenRow(None));
    }

    /** Links the chat with the given username (None by default) and clears
        the token; the unique constraint rejects a chat id another row holds
        (`IntegrityError`), leaving the table as it was. */
    method UpdateTelegramChatId(userId: UserId, chatId: int, username: Option<string>)
      returns (integrityError: bool)
      requires WellKeyed(session.users)
      modifies session
      ensures session.committed == old(session.committed)
      ensures integrityError <==> userId in old(session.users) && ChatTakenByOther(old(session.users), userId, chatId)
      ensures session.users == if integrityError then old(session.users)
                               else UpdateWhere(old(session.users), userId, LinkRow(chatId, username, None))
    {
      var holder := SelectOne(session.users, HoldsChat(chatId));
      integrityError := userId in session.users && holder != NoRow && !(holder.OneRow? && holder.user.id == userId);
      ghost var rows := RowsWhere(session.users, HoldsChat(chatId));
      if ChatTakenByOther(session.users, userId, chatId) {
        ghost var o :| o in session.users && o != userId && session.users[o].telegramChatId == Some(chatId);
        assert o in rows;
      }
      if holder.OneRow? {
        assert holder.user.id in rows;
      } else if holder == MultipleRows {
        ghost var a, b :| a in rows && b in rows && a != b;
        assert a in rows && b in rows;
      }
      if !integrityError {
        session.users := UpdateWhere(session.users, userId, LinkRow(chatId, username, None));
      }
    }

    /** The stored chat id, or None when there is no such user. */
    method GetChatIdByUserId(userId: UserId) returns (chatId: Option<int>)
      ensures userId !in session.users ==> chatId == None
      ensures userId in session.users ==> chatId == session.users[userId].telegramChatId
    {
      chatId := if userId in session.users then session.users[userId].telegramChatId else None;
    }

    method LogoutUser(userId: UserId)
      modifies session
      ensures session.committed == old(session.committed)
      ensures session.users == UpdateWhere(old(session.users), userId, LogoutRow())
    {
      session.users := UpdateWhere(session.users, userId, LogoutRow());
    }
  }

  /** Linking without a locale leaves the stored locale alone. */
  lemma LinkKeepsLocale(t: Table, userId: UserId, chatId: int, username: Option<string>)
    requires userId in t
    ensures UpdateWhere(t, userId, LinkRow(chatId, username, None))[userId].locale == t[userId].locale
  {
  }
}
