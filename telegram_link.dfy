/** The deep link both telegram services hand out for registration
    (backend/src/app/api/modules/telegram/service.py and
    src/app/api/modules/telegram/service.py): the bot's link with a `start`
    parameter carrying the registration token and the locale. */
module TelegramLink {

  /** The `/start` payload: `<token>_<locale>`. */
  function StartPayload(token: string, locale: string): string {
    token + "_" + locale
  }

  function RegistrationLink(botLink: string, token: string, locale: string): (link: string)
    ensures link == botLink + "?start=" + StartPayload(token, locale)
  {
    botLink + "?start=" + token + "_" + locale
  }
}
