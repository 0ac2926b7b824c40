/** The older service's telegram service
    (src/app/api/modules/telegram/service.py). */
module LegacyTelegramService {
  import opened Wrappers
  import opened Users
  import opened TelegramLink
  import LegacyTelegramGateway

  datatype ChatIdResponse = ChatIdResponse(chatId: Option<int>, telegramUsername: Option<string>)

  function GetChatIdResponse(t: Table, id: UserId): ChatIdResponse {
    if id in t then ChatIdResponse(t[id].telegramChatId, t[id].telegramUsername) else ChatIdResponse(None, None)
  }

  /** An unknown user has neither chat id nor username; a known user's are
      reported as stored. */
  lemma GetChatIdResponseSpec(t: Table, id: UserId)
    ensures id !in t ==> GetChatIdResponse(t, id) == ChatIdResponse(None, None)
    ensures id in t ==> GetChatIdResponse(t, id).chatId == t[id].telegramChatId
    ensures id in t ==> GetChatIdResponse(t, id).telegramUsername == t[id].telegramUsername
  {
  }

  class Service {
    const gateway: LegacyTelegramGateway.Gateway
    const botLink: string

    constructor (gateway: LegacyTelegramGateway.Gateway, botLink: string)
      ensures this.gateway == gateway && this.botLink == botLink
    {
      this.gateway := gateway;
      this.botLink := botLink;
    }

    method GetRegistrationLink(userId: UserId, locale: string, newToken: string) returns (link: string)
      modifies gateway.session
      ensures gateway.session.users == UpdateWhere(old(gateway.session.users), userId, SetTokenRow(Some(newToken)))
      ensures gateway.session.committed == gateway.session.users
      ensures link == RegistrationLink(botLink, newToken, locale)
    {
      var token := gateway.SetTelegramToken(userId, newToken);
      gateway.session.Commit();
      link := RegistrationLink(botLink, token, locale);
    }

    method Logout(userId: UserId)
      modifies gateway.session
      ensures gateway.session.users == UpdateWhere(old(gateway.session.users), userId, LogoutRow())
      ensures gateway.session.committed == gateway.session.users
    {
      gateway.LogoutUser(userId);
      gateway.session.Commit();
    }

    method GetChatId(userId: UserId) returns (r: ChatIdResponse)
      ensures r == GetChatIdResponse(gateway.session.users, userId)
    {
      r := GetChatIdResponse(gateway.session.users, userId);
    }
  }
}
