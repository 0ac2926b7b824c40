/** The back end's telegram service
    (backend/src/app/api/modules/telegram/service.py): each write goes
    through the gateway and is then committed; reads look the user up by
    id. */
module TelegramService {
  import opened Wrappers
  import opened Users
  import opened TelegramLink
  import TelegramGateway
  import StartHandler

  /** `users.get_by_id`. */
  function UserById(t: Table, id: UserId): Option<User> {
    if id in t then Some(t[id]) else None
  }

  /** The response model as the schema declares it: chat id and username. */
  datatype ChatIdResponse = ChatIdResponse(chatId: Option<int>, telegramUsername: Option<string>)

  /** `get_chat_id` as written: the daily flag handed to the response model
      is not one of its fields, so the model discards it. */
  function GetChatIdAsWritten(user: Option<User>): ChatIdResponse {
    match user
    case None => ChatIdResponse(None, None)
    case Some(u) => ChatIdResponse(u.telegramChatId, u.telegramUsername)
  }

  /** The response cannot tell a user who opted in to daily reports from one
      who did not. */
  lemma DailyFlagDropped(u: User)
    ensures GetChatIdAsWritten(Some(u.(telegramDailyEnabled := true)))
         == GetChatIdAsWritten(Some(u.(telegramDailyEnabled := false)))
  {
  }

  /** The response the client reads: chat id, username and the daily flag
      (false for an unknown user). */
  datatype ChatStatus = ChatStatus(chatId: Option<int>, telegramUsername: Option<string>, telegramDailyEnabled: bool)

  function GetChatIdStatus(user: Option<User>): ChatStatus {
    match user
    case None => ChatStatus(None, None, false)
    case Some(u) => ChatStatus(u.telegramChatId, u.telegramUsername, u.telegramDailyEnabled)
  }

  /** An unknown user has no chat; a known user's chat id, username and
      daily flag are reported as stored, and two users with different daily
      flags get different answers. */
  lemma GetChatIdStatusSpec(t: Table, id: UserId)
    ensures id !in t ==> GetChatIdStatus(UserById(t, id)) == ChatStatus(None, None, false)
    ensures id in t ==>
      var r := GetChatIdStatus(UserById(t, id));
      r.chatId == t[id].telegramChatId && r.telegramUsername == t[id].telegramUsername &&
      r.telegramDailyEnabled == t[id].telegramDailyEnabled
    ensures forall u: User :: GetChatIdStatus(Some(u.(telegramDailyEnabled := true)))
                           != GetChatIdStatus(Some(u.(telegramDailyEnabled := false)))
  {
  }

  /** `validate_broadcast`: 404 for an unknown user, 400 when the chat id is
      falsy, otherwise success. */
  function ValidateBroadcast(user: Option<User>): Result<(), HttpError> {
    match user
    case None => Failure(HttpError(404, "User not found"))
    case Some(u) =>
      if !HasChat(u) then Failure(HttpError(400, "Telegram not connected. Connect Telegram first."))
      else Success(())
  }

  /** A broadcast is allowed exactly for a known user with a non-zero chat
      id; the unknown-user check comes first. */
  lemma ValidateBroadcastSpec(t: Table, id: UserId)
    ensures ValidateBroadcast(UserById(t, id)).Success? <==> id in t && HasChat(t[id])
    ensures id !in t ==> ValidateBroadcast(UserById(t, id)).error.status == 404
    ensures id in t && !HasChat(t[id]) ==> ValidateBroadcast(UserById(t, id)).error.status == 400
  {
  }

  class Service {
    const gateway: TelegramGateway.Gateway
    const botLink: string

    constructor (gateway: TelegramGateway.Gateway, botLink: string)
      ensures this.gateway == gateway && this.botLink == botLink
    {
      this.gateway := gateway;
      this.botLink := botLink;
    }

    /** Store a new token (`newToken` is the gateway's `uuid4()`), commit, and
        build the deep link from it. */
    method GetRegistrationLink(userId: UserId, locale: string, newToken: string) returns (link: string)
      modifies gateway.session
      ensures gateway.session.users == UpdateWhere(old(gateway.session.users), userId, SetTokenRow(Some(newToken)))
      ensures gateway.session.committed == gateway.session.users
      ensures link == RegistrationLink(botLink, newToken, locale)
    {
      var token := gateway.SetTelegramToken(userId, newToken);
      gateway.session.Commit();
      link := RegistrationLink(botLink, token, locale);
    }

    method Logout(userId: UserId)
      modifies gateway.session
      ensures gateway.session.users == UpdateWhere(old(gateway.session.users), userId, LogoutRow())
      ensures gateway.session.committed == gateway.session.users
    {
      gateway.LogoutUser(userId);
      gateway.session.Commit();
    }

    method ToggleDaily(userId: UserId, enabled: bool)
      modifies gateway.session
      ensures gateway.session.users == UpdateWhere(old(gateway.session.users), userId, DailyRow(enabled))
      ensures gateway.session.committed == gateway.session.users
    {
      gateway.ToggleDaily(userId, enabled);
      gateway.session.Commit();
    }

    method GetChatId(userId: UserId) returns (r: ChatStatus)
      ensures r == GetChatIdStatus(UserById(gateway.session.users, userId))
    {
      r := GetChatIdStatus(UserById(gateway.session.users, userId));
    }

    method ValidateBroadcastFor(userId: UserId) returns (r: Result<(), HttpError>)
      ensures r == ValidateBroadcast(UserById(gateway.session.users, userId))
    {
      r := ValidateBroadcast(UserById(gateway.session.users, userId));
    }
  }

  /** The registration token just stored is the user's only pending token,
      and the `start` parameter the bot receives from the link parses back
      into exactly that token and the link's locale. */
  lemma RegistrationStoresLinkedToken(t: Table, userId: UserId, newToken: string, botLink: string, locale: string)
    requires Valid(t) && userId in t
    requires forall other :: other in t && other != userId ==> t[other].telegramToken != Some(newToken)
    ensures var t' := UpdateWhere(t, userId, SetTokenRow(Some(newToken)));
      && Valid(t')
      && RowsWhere(t', HoldsToken(newToken)) == {userId}
      && (newToken != [] && (locale == "ua" || locale == "ru") ==>
            var link := RegistrationLink(botLink, newToken, locale);
            StartHandler.ParseStartPayload(Some(link[|botLink + "?start="|..])) == (Some(newToken), Some(locale)))
  {
    FreshTokenKeepsValid(t, userId, newToken);
    if newToken != [] && (locale == "ua" || locale == "ru") {
      var link := RegistrationLink(botLink, newToken, locale);
      assert link[|botLink + "?start="|..] == StartPayload(newToken, locale);
      StartHandler.ParseStartPayloadRoundTrip(newToken, locale);
    }
  }
}
