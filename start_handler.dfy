/** The bot's `/start` handler in the older service
    (src/app/api/modules/telegram/services/handlers/start.py): it parses
    the deep-link payload, finds the user holding the registration token
    and links the chat to that user, detaching the chat from any other
    user first. The reply is the message key and the locale it is shown
    in; its text is `Messages.GetMessage` of those. */
module StartHandler {
  import opened Wrappers
  import opened Text
  import opened Users
  import opened Messages
  import opened TelegramLink
  import LegacyTelegramGateway

  /** `parse_start_payload`: the token and the locale of `<token>_<locale>`,
      split at the last underscore. Old links ending in `_uk` mean
      Ukrainian; anything else is taken whole as the token. */
  function ParseStartPayload(payload: Option<string>): (Option<string>, Option<string>) {
    if payload.None? || payload.value == "" then (None, None)
    else
      var s := payload.value;
      var token := if '_' in s then s[..LastIndexOf(s, '_')] else "";
      var locale := if '_' in s then s[LastIndexOf(s, '_') + 1..] else s;
      if '_' in s && token != "" && (locale == "ua" || locale == "ru") then (Some(token), Some(locale))
      else if '_' in s && token != "" && locale == "uk" then (Some(token), Some("ua"))
      else (Some(s), None)
  }

  /** The payload of a link the service hands out parses back into its
      token and locale; a `_uk` link parses into Ukrainian. */
  lemma ParseStartPayloadRoundTrip(token: string, locale: string)
    requires token != []
    requires locale == "ua" || locale == "ru" || locale == "uk"
    ensures ParseStartPayload(Some(StartPayload(token, locale)))
         == (Some(token), Some(if locale == "uk" then "ua" else locale))
  {
    var s := StartPayload(token, locale);
    assert '_' !in locale;
    SplitPayload(token, locale);
    var parsed := ParseStartPayload(Some(s));
    if locale == "uk" {
      assert parsed == (Some(token), Some("ua"));
    } else {
      assert parsed == (Some(token), Some(locale));
    }
  }

  /** Splitting `a + "_" + b` at its last underscore gives back `a` and
      `b` when `b` has no underscore. */
  lemma SplitPayload(a: string, b: string)
    requires '_' !in b
    ensures var s := StartPayload(a, b);
            '_' in s && s[..LastIndexOf(s, '_')] == a && s[LastIndexOf(s, '_') + 1..] == b
  {
    LastUnderscore(a, b);
  }

  /** In `a + "_" + b` with no underscore in `b`, the last underscore is
      the one between them. */
  lemma LastUnderscore(a: string, b: string)
    requires '_' !in b
    ensures '_' in a + "_" + b && LastIndexOf(a + "_" + b, '_') == |a|
  {
    var s := a + "_" + b;
    assert s[|a|] == '_';
  }

  /** Whatever the payload, a parsed locale is supported and a token, when
      present, is non-empty; without a supported locale suffix the whole
      payload is the token. */
  lemma ParseStartPayloadSpec(payload: Option<string>)
    ensures ParseStartPayload(payload).1.Some? ==> IsSupported(ParseStartPayload(payload).1.value)
    ensures ParseStartPayload(payload).0.Some? ==> ParseStartPayload(payload).0.value != ""
    ensures ParseStartPayload(payload).0.None? <==> payload.None? || payload.value == ""
    ensures ParseStartPayload(payload).0.Some? && ParseStartPayload(payload).1.None? ==>
            ParseStartPayload(payload).0 == payload
  {
  }

  datatype Outcome = Replied(key: string, locale: string) | Crashed

  /** The handler's effect on a fresh session over table `t`: the table as
      committed when the session closes, and the reply. A lookup that finds
      two rows raises `MultipleResultsFound`; the session then closes
      without committing. */
  ghost function StartSpec(t: Table, chatId: int, payload: Option<string>, languageCode: Option<string>)
    : (Table, Outcome)
    requires WellKeyed(t)
  {
    var parsed := ParseStartPayload(payload);
    var locale := if parsed.1.Some? && parsed.1.value != "" then NormalizeLocale(parsed.1)
                  else DetectTelegramLocale(languageCode);
    var existing := Find(t, HoldsChat(chatId));
    if existing == MultipleRows then (t, Crashed)
    else if parsed.0.None? || parsed.0.value == "" then
      (t, Replied(if existing.OneRow? then "already_registered" else "use_link", locale))
    else
      var found := Find(t, HoldsToken(parsed.0.value));
      if found == MultipleRows then (t, Crashed)
      else if found == NoRow then (t, Replied("invalid_token", locale))
      else LinkStep(t, existing, found.user, chatId, locale)
  }

  /** Without a token, or with a token nobody holds, the handler only
      replies: the table is left as it was. */
  lemma ReadOnlyPaths(t: Table, chatId: int, payload: Option<string>, languageCode: Option<string>)
    requires WellKeyed(t)
    ensures ParseStartPayload(payload).0.None? ==> StartSpec(t, chatId, payload, languageCode).0 == t
    ensures ParseStartPayload(payload).0.None? && Find(t, HoldsChat(chatId)) != MultipleRows ==>
              StartSpec(t, chatId, payload, languageCode).1.Replied? &&
              StartSpec(t, chatId, payload, languageCode).1.key ==
                (if Find(t, HoldsChat(chatId)).OneRow? then "already_registered" else "use_link")
    ensures ParseStartPayload(payload).0.Some? && Find(t, HoldsToken(ParseStartPayload(payload).0.value)) == NoRow ==>
              StartSpec(t, chatId, payload, languageCode).0 == t &&
              (StartSpec(t, chatId, payload, languageCode).1 == Crashed ||
               StartSpec(t, chatId, payload, languageCode).1.key == "invalid_token")
  {
    ParseStartPayloadSpec(payload);
  }

  /** The part of the handler after the token's holder `u` is found, with
      `existing` the lookup by chat id: detach the chat from another
      holder, then either clear the token of a user who already holds the
      chat, or link the chat. A violated unique constraint raises
      `IntegrityError` and nothing is committed. */
  ghost function LinkStep(t: Table, existing: Lookup, u: User, chatId: int, locale: string): (Table, Outcome) {
    var detached := if existing.OneRow? && existing.user.id != u.id
                    then UpdateWhere(t, existing.user.id, LogoutRow()) else t;
    if u.telegramChatId == Some(chatId) then
      (UpdateWhere(detached, u.id, SetTokenRow(None)), Replied("already_registered", locale))
    else if u.id in detached && ChatTakenByOther(detached, u.id, chatId) then (t, Crashed)
    else
      var linked := UpdateWhere(detached, u.id, LinkRow(chatId, None, None));
      var current := if u.id in linked then linked[u.id].telegramChatId else None;
      (linked, Replied(if current == Some(chatId) then "success" else "save_error", locale))
  }

  /** `start_command` on a fresh session. */
  method StartCommand(gw: LegacyTelegramGateway.Gateway, chatId: int, payload: Option<string>,
                      languageCode: Option<string>) returns (outcome: Outcome)
    requires WellKeyed(gw.session.users)
    requires gw.session.committed == gw.session.users
    modifies gw.session
    ensures (gw.session.committed, outcome) == StartSpec(old(gw.session.users), chatId, payload, languageCode)
    ensures gw.session.users == gw.session.committed
  {
    ghost var t := gw.session.users;
    var fallbackLocale := DetectTelegramLocale(languageCode);
    var parsed := ParseStartPayload(payload);
    var token, payloadLocale := parsed.0, parsed.1;
    var responseLocale := if payloadLocale.Some? && payloadLocale.value != "" then NormalizeLocale(payloadLocale)
                          else fallbackLocale;
    var existing := gw.GetUserByChatId(chatId);
    if existing == MultipleRows {
      gw.session.Rollback();
      return Crashed;
    }
    if token.None? || token.value == "" {
      return Replied(if existing.OneRow? then "already_registered" else "use_link", responseLocale);
    }
    var found := gw.GetUserByToken(token.value);
    if found == MultipleRows {
      gw.session.Rollback();
      return Crashed;
    }
    if found == NoRow {
      return Replied("invalid_token", responseLocale);
    }
    outcome := Link(gw, existing, found.user, chatId, responseLocale);
  }

  /** The handler from the point where the token's holder `user` is known. */
  method Link(gw: LegacyTelegramGateway.Gateway, existing: Lookup, user: User, chatId: int, locale: string)
    returns (outcome: Outcome)
    requires WellKeyed(gw.session.users)
    requires gw.session.committed == gw.session.users
    modifies gw.session
    ensures (gw.session.committed, outcome) == LinkStep(old(gw.session.users), existing, user, chatId, locale)
    ensures gw.session.users == gw.session.committed
  {
    if existing.OneRow? && existing.user.id != user.id {
      UpdateKeepsWellKeyed(gw.session.users, existing.user.id, LogoutRow());
      gw.LogoutUser(existing.user.id);
    }
    if user.telegramChatId == Some(chatId) {
      gw.ClearToken(user.id);
      gw.session.Commit();
      return Replied("already_registered", locale);
    }
    var integrityError := gw.UpdateTelegramChatId(user.id, chatId, None);
    if integrityError {
      gw.session.Rollback();
      return Crashed;
    }
    gw.session.Commit();
    var current := gw.GetChatIdByUserId(user.id);
    outcome := Replied(if current == Some(chatId) then "success" else "save_error", locale);
  }

  // ---------------------------------------------------------------------

  /** Facts about `Find` on a well-keyed table that the proofs below use. */
  lemma FindFacts(t: Table, p: User -> bool)
    requires WellKeyed(t)
    ensures Find(t, p) == NoRow ==> RowsWhere(t, p) == {}
    ensures Find(t, p).OneRow? ==> Find(t, p).user.id in t && t[Find(t, p).user.id] == Find(t, p).user
    ensures Find(t, p).OneRow? ==> RowsWhere(t, p) == {Find(t, p).user.id}
  {
    FindIsLookup(t, p);
  }

  /** Once the chat's previous holder (if any) is detached, no other row
      holds the chat, so linking never raises `IntegrityError` and the
      refreshed row always holds the chat: `save_error` is unreachable. */
  lemma LinkStepSucceeds(t: Table, u: User, chatId: int, locale: string)
    requires WellKeyed(t) && u.id in t && t[u.id] == u
    requires Find(t, HoldsChat(chatId)) != MultipleRows
    ensures LinkStep(t, Find(t, HoldsChat(chatId)), u, chatId, locale).1.Replied?
    ensures LinkStep(t, Find(t, HoldsChat(chatId)), u, chatId, locale).1.key != "save_error"
  {
    var existing := Find(t, HoldsChat(chatId));
    FindFacts(t, HoldsChat(chatId));
    var detached := if existing.OneRow? && existing.user.id != u.id
                    then UpdateWhere(t, existing.user.id, LogoutRow()) else t;
    assert forall o :: o in detached && o != u.id && detached[o].telegramChatId == Some(chatId) ==>
      o in RowsWhere(t, HoldsChat(chatId));
  }

  /** The handler crashes only on a lookup that finds two rows. */
  lemma CrashesOnlyOnDuplicates(t: Table, chatId: int, payload: Option<string>, languageCode: Option<string>)
    requires WellKeyed(t)
    ensures StartSpec(t, chatId, payload, languageCode).1 == Crashed ==>
            Find(t, HoldsChat(chatId)) == MultipleRows ||
            (ParseStartPayload(payload).0.Some? && Find(t, HoldsToken(ParseStartPayload(payload).0.value)) == MultipleRows)
    ensures StartSpec(t, chatId, payload, languageCode).1.Replied? ==>
            StartSpec(t, chatId, payload, languageCode).1.key != "save_error"
  {
    var parsed := ParseStartPayload(payload);
    if parsed.0.Some? && parsed.0.value != "" {
      var found := Find(t, HoldsToken(parsed.0.value));
      FindFacts(t, HoldsToken(parsed.0.value));
      if found.OneRow? && Find(t, HoldsChat(chatId)) != MultipleRows {
        LinkStepSucceeds(t, found.user, chatId, if parsed.1.Some? && parsed.1.value != "" then NormalizeLocale(parsed.1)
                  else DetectTelegramLocale(languageCode));
      }
    }
  }

  /** On a valid table the handler never crashes. */
  lemma NeverCrashesOnValid(t: Table, chatId: int, payload: Option<string>, languageCode: Option<string>)
    requires Valid(t)
    ensures StartSpec(t, chatId, payload, languageCode).1.Replied?
  {
    CrashesOnlyOnDuplicates(t, chatId, payload, languageCode);
    ChatLookupAtMostOne(t, chatId);
    FindIsLookup(t, HoldsChat(chatId));
    var parsed := ParseStartPayload(payload);
    if parsed.0.Some? {
      TokenLookupAtMostOne(t, parsed.0.value);
      FindIsLookup(t, HoldsToken(parsed.0.value));
    }
  }

  /** Linking keeps the table valid. */
  lemma LinkStepKeepsValid(t: Table, existing: Lookup, u: User, chatId: int, locale: string)
    requires Valid(t)
    ensures Valid(LinkStep(t, existing, u, chatId, locale).0)
  {
    var detached := if existing.OneRow? && existing.user.id != u.id
                    then UpdateWhere(t, existing.user.id, LogoutRow()) else t;
    assert Valid(detached) by {
      if existing.OneRow? && existing.user.id != u.id {
        ClearingUpdateKeepsValid(t, existing.user.id, LogoutRow());
      }
    }
    if u.telegramChatId == Some(chatId) {
      ClearingUpdateKeepsValid(detached, u.id, SetTokenRow(None));
    } else if !(u.id in detached && ChatTakenByOther(detached, u.id, chatId)) {
      if u.id in detached {
        LinkKeepsValid(detached, u.id, chatId, None, None);
      }
    }
  }

  /** The handler keeps the table valid. */
  lemma StartKeepsValid(t: Table, chatId: int, payload: Option<string>, languageCode: Option<string>)
    requires Valid(t)
    ensures Valid(StartSpec(t, chatId, payload, languageCode).0)
  {
    var parsed := ParseStartPayload(payload);
    var locale := if parsed.1.Some? && parsed.1.value != "" then NormalizeLocale(parsed.1)
                  else DetectTelegramLocale(languageCode);
    if parsed.0.Some? && parsed.0.value != "" {
      var found := Find(t, HoldsToken(parsed.0.value));
      if found.OneRow? {
        LinkStepKeepsValid(t, Find(t, HoldsChat(chatId)), found.user, chatId, locale);
      }
    }
  }

  /** After linking, the token's holder holds the chat with its token
      cleared, and no other row holds the chat. */
  lemma LinkStepLinks(t: Table, u: User, chatId: int, locale: string)
    requires Valid(t) && u.id in t && t[u.id] == u
    ensures var (t', out) := LinkStep(t, Find(t, HoldsChat(chatId)), u, chatId, locale);
            && u.id in t' && t'[u.id].telegramChatId == Some(chatId) && t'[u.id].telegramToken == None
            && forall o :: o in t' && o != u.id ==> t'[o].telegramChatId != Some(chatId)
  {
    var existing := Find(t, HoldsChat(chatId));
    FindFacts(t, HoldsChat(chatId));
    ChatLookupAtMostOne(t, chatId);
    FindIsLookup(t, HoldsChat(chatId));
    LinkStepSucceeds(t, u, chatId, locale);
    var detached := if existing.OneRow? && existing.user.id != u.id
                    then UpdateWhere(t, existing.user.id, LogoutRow()) else t;
    forall o | o in detached && o != u.id
      ensures detached[o].telegramChatId != Some(chatId)
    {
      if !(existing.OneRow? && o == existing.user.id) {
        assert detached[o] == t[o];
        assert o !in RowsWhere(t, HoldsChat(chatId));
      }
    }
  }

  /** Following a registration link whose token one user holds links
      that user: afterwards the row holds the chat, its token is cleared,
      no other row holds the chat, and the reply is `success` or
      `already_registered` in the link's locale. */
  lemma StartLinksTokenHolder(t: Table, chatId: int, token: string, linkLocale: string, languageCode: Option<string>)
    requires Valid(t)
    requires token != [] && (linkLocale == "ua" || linkLocale == "ru")
    requires Find(t, HoldsToken(token)).OneRow?
    ensures var (t', out) := StartSpec(t, chatId, Some(StartPayload(token, linkLocale)), languageCode);
            var id := Find(t, HoldsToken(token)).user.id;
            && out.Replied? && (out.key == "success" || out.key == "already_registered")
            && out.locale == linkLocale
            && id in t' && t'[id].telegramChatId == Some(chatId) && t'[id].telegramToken == None
            && forall o :: o in t' && o != id ==> t'[o].telegramChatId != Some(chatId)
  {
    FindFacts(t, HoldsToken(token));
    var u := Find(t, HoldsToken(token)).user;
    StartFollowsLink(t, chatId, token, linkLocale, languageCode);
    LinkStepLinks(t, u, chatId, linkLocale);
    LinkStepSucceeds(t, u, chatId, linkLocale);
    var (t', out) := LinkStep(t, Find(t, HoldsChat(chatId)), u, chatId, linkLocale);
    assert out.Replied? && (out.key == "success" || out.key == "already_registered");
  }

  /** With a generated link and a valid table the handler reaches the
      linking step for the token's holder, in the link's locale. */
  lemma StartFollowsLink(t: Table, chatId: int, token: string, linkLocale: string, languageCode: Option<string>)
    requires Valid(t)
    requires token != [] && (linkLocale == "ua" || linkLocale == "ru")
    requires Find(t, HoldsToken(token)).OneRow?
    ensures Find(t, HoldsChat(chatId)) != MultipleRows
    ensures StartSpec(t, chatId, Some(StartPayload(token, linkLocale)), languageCode)
         == LinkStep(t, Find(t, HoldsChat(chatId)), Find(t, HoldsToken(token)).user, chatId, linkLocale)
  {
    var payload := Some(StartPayload(token, linkLocale));
    assert ParseStartPayload(payload) == (Some(token), Some(linkLocale)) by {
      ParseStartPayloadRoundTrip(token, linkLocale);
    }
    assert NormalizeLocale(Some(linkLocale)) == linkLocale by {
      NormalizeLocaleSpec(Some(linkLocale));
    }
    assert Find(t, HoldsChat(chatId)) != MultipleRows by {
      ChatLookupAtMostOne(t, chatId);
      FindIsLookup(t, HoldsChat(chatId));
    }
  }

  /** Every reply has a text: its key is one of `MESSAGES`' keys, so with
      a complete table `get_message` never raises `KeyError`, and the text
      is in the reply's locale. */
  lemma RepliesHaveText(table: MessageTable, t: Table, chatId: int, payload: Option<string>, languageCode: Option<string>)
    requires WellKeyed(t) && Complete(table)
    ensures var out := StartSpec(t, chatId, payload, languageCode).1;
            out.Replied? ==> IsSupported(out.locale) && GetMessage(table, out.key, Some(out.locale)) == Success(table[out.key][out.locale])
  {
    var out := StartSpec(t, chatId, payload, languageCode).1;
    StartReplies(t, chatId, payload, languageCode);
    if out.Replied? {
      assert NormalizeLocale(Some(out.locale)) == out.locale;
      GetMessageTotal(table, out.key, Some(out.locale));
    }
  }

  /** The linking step replies with one of its three keys, in the locale
      it was given. */
  lemma LinkStepReplies(t: Table, existing: Lookup, u: User, chatId: int, locale: string)
    ensures var out := LinkStep(t, existing, u, chatId, locale).1;
            out.Replied? ==> out.key in MessageKeys && out.locale == locale
  {
  }

  /** The handler replies with a message key, in a supported locale. */
  lemma StartReplies(t: Table, chatId: int, payload: Option<string>, languageCode: Option<string>)
    requires WellKeyed(t)
    ensures var out := StartSpec(t, chatId, payload, languageCode).1;
            out.Replied? ==> out.key in MessageKeys && IsSupported(out.locale)
  {
    var parsed := ParseStartPayload(payload);
    var locale := if parsed.1.Some? && parsed.1.value != "" then NormalizeLocale(parsed.1)
                  else DetectTelegramLocale(languageCode);
    assert IsSupported(locale);
    var found := Find(t, HoldsToken(if parsed.0.Some? then parsed.0.value else ""));
    if found.OneRow? {
      LinkStepReplies(t, Find(t, HoldsChat(chatId)), found.user, chatId, locale);
    }
  }
}
