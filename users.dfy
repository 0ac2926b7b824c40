/** The `users` table and the `facebook_auth` records as the back ends
    store them (backend/src/app/api/modules/users/models.py), together with
    the single-row lookup the gateways use and the row updates they issue.
    The table is a map from user id to row; `telegram_chat_id` is declared
    unique, so at most one row may hold a given chat id. */
module Users {
  import opened Wrappers

  /** A user's UUID; the model only needs identity. */
  type UserId = nat

  datatype User = User(
    id: UserId,
    username: string,
    password: string,
    isActive: bool,
    isAdmin: bool,
    adAccountId: Option<string>,
    createdById: Option<UserId>,
    telegramChatId: Option<int>,
    telegramUsername: Option<string>,
    telegramToken: Option<string>,
    telegramDailyEnabled: bool,
    locale: Option<string>)

  type Table = map<UserId, User>

  /** Each row is stored under its own id. */
  ghost predicate WellKeyed(t: Table) {
    forall id :: id in t ==> t[id].id == id
  }

  /** The unique constraint on `telegram_chat_id` (NULLs excepted). */
  ghost predicate ChatIdsUnique(t: Table) {
    forall a, b :: a in t && b in t && a != b && t[a].telegramChatId.Some? ==>
      t[a].telegramChatId != t[b].telegramChatId
  }

  /** No two rows hold the same pending registration token. */
  ghost predicate TokensUnique(t: Table) {
    forall a, b :: a in t && b in t && a != b && t[a].telegramToken.Some? ==>
      t[a].telegramToken != t[b].telegramToken
  }

  ghost predicate Valid(t: Table) {
    WellKeyed(t) && ChatIdsUnique(t) && TokensUnique(t)
  }

  /** Python truthiness of the stored chat id (`if user.telegram_chat_id`). */
  predicate HasChat(u: User) {
    u.telegramChatId.Some? && u.telegramChatId.value != 0
  }

  /** `scalar_one_or_none()`: no row, the one row, or the
      `MultipleResultsFound` error. */
  datatype Lookup = NoRow | OneRow(user: User) | MultipleRows

  /** `r` is what `scalar_one_or_none()` gives for the rows `ids` of `t`. */
  ghost predicate LookupOf(r: Lookup, t: Table, ids: set<UserId>)
    requires ids <= t.Keys
  {
    && (r == NoRow <==> ids == {})
    && (r.OneRow? <==> exists id :: ids == {id})
    && (r.OneRow? ==> ids == {r.user.id} && t[r.user.id] == r.user)
    && (r == MultipleRows <==> exists a, b :: a in ids && b in ids && a != b)
  }

  ghost function RowsWhere(t: Table, p: User -> bool): set<UserId> {
    set id | id in t && p(t[id])
  }

  /** The outcome of `scalar_one_or_none()` on the rows of `t` that satisfy `p`. */
  ghost function Find(t: Table, p: User -> bool): Lookup {
    var ids := RowsWhere(t, p);
    if ids == {} then NoRow
    else if exists a, b :: a in ids && b in ids && a != b then MultipleRows
    else var id :| id in ids; OneRow(t[id])
  }

  /** `LookupOf` pins the outcome down: it is `Find`. */
  lemma LookupIsFind(r: Lookup, t: Table, p: User -> bool)
    requires WellKeyed(t)
    requires LookupOf(r, t, RowsWhere(t, p))
    ensures r == Find(t, p)
  {
    var ids := RowsWhere(t, p);
    if r.OneRow? {
      assert !exists a, b :: a in ids && b in ids && a != b;
      var id :| id in ids;
      assert id == r.user.id;
    }
  }

  /** Conversely, `Find` is what `scalar_one_or_none()` gives. */
  lemma FindIsLookup(t: Table, p: User -> bool)
    requires WellKeyed(t)
    ensures LookupOf(Find(t, p), t, RowsWhere(t, p))
  {
    var ids := RowsWhere(t, p);
    var r := Find(t, p);
    if r.OneRow? {
      var id :| id in ids && r == OneRow(t[id]);
      assert forall a :: a in ids ==> a == id;
      assert ids == {id};
    } else if r == MultipleRows {
      var a, b :| a in ids && b in ids && a != b;
      assert forall id :: id in ids ==> a != id || b != id;
    }
  }

  /** `SELECT ... WHERE p` followed by `scalar_one_or_none()`: a scan of
      the table that stops caring after the second match. */
  method SelectOne(t: Table, p: User -> bool) returns (r: Lookup)
    requires WellKeyed(t)
    ensures LookupOf(r, t, RowsWhere(t, p))
  {
    var remaining := t.Keys;
    ghost var matched: set<UserId> := {};
    r := NoRow;
    while remaining != {}
      invariant remaining <= t.Keys
      invariant matched == set id | id in t.Keys - remaining && p(t[id])
      invariant r == NoRow <==> matched == {}
      invariant r.OneRow? ==> matched == {r.user.id} && r.user.id in t && t[r.user.id] == r.user
      invariant r == MultipleRows ==> exists a, b :: a in matched && b in matched && a != b
      decreases remaining
    {
      var id :| id in remaining;
      remaining := remaining - {id};
      if p(t[id]) {
        if r == NoRow {
          r := OneRow(t[id]);
        } else if r.OneRow? {
          assert r.user.id in matched;
          r := MultipleRows;
        }
        matched := matched + {id};
      }
    }
    assert t.Keys - remaining == t.Keys;
    assert matched == RowsWhere(t, p);
    if r == MultipleRows {
      ghost var a, b :| a in matched && b in matched && a != b;
      assert forall id :: matched != {id};
    } else if r.OneRow? {
      assert forall a, b :: a in matched && b in matched ==> a == b;
    }
  }

  /** A database session: the table as this session sees it, with its
      flushed but uncommitted writes, and the table as last committed. */
  class Session {
    var users: Table
    var committed: Table

    constructor (t: Table)
      ensures users == t && committed == t
    {
      users := t;
      committed := t;
    }

    method Commit()
      modifies this
      ensures committed == users && users == old(users)
    {
      committed := users;
    }

    /** Leaving the session's block after an exception: uncommitted writes
        are discarded. */
    method Rollback()
      modifies this
      ensures users == old(committed) && committed == old(committed)
    {
      users := committed;
    }
  }

  /** `UPDATE users SET ... WHERE id = :id`: the row is rewritten by `f`, or
      nothing happens when there is no such row. */
  function UpdateWhere(t: Table, id: UserId, f: User -> User): (r: Table)
    ensures r.Keys == t.Keys
    ensures forall other :: other in t && other != id ==> r[other] == t[other]
    ensures id in t ==> r[id] == f(t[id])
  {
    if id in t then t[id := f(t[id])] else t
  }

  // The row rewrites issued by the telegram gateways.

  function SetTokenRow(token: Option<string>): User -> User {
    (u: User) => u.(telegramToken := token)
  }

  function LogoutRow(): User -> User {
    (u: User) => u.(telegramChatId := None, telegramUsername := None, telegramToken := None)
  }

  function DailyRow(enabled: bool): User -> User {
    (u: User) => u.(telegramDailyEnabled := enabled)
  }

  /** Link a chat: set the chat id and the username, clear the token, and
      set the locale only when a non-empty one is given. */
  function LinkRow(chatId: int, username: Option<string>, locale: Option<string>): User -> User {
    (u: User) => u.(telegramChatId := Some(chatId), telegramUsername := username, telegramToken := None,
            locale := if locale.Some? && locale.value != "" then locale else u.locale)
  }

  /** Another row already holds the chat id, so linking `id` to it would
      violate the unique constraint. */
  ghost predicate ChatTakenByOther(t: Table, id: UserId, chatId: int) {
    exists other :: other in t && other != id && t[other].telegramChatId == Some(chatId)
  }

  // ---------------------------------------------------------------------

  /** Rewrites that never give a row a chat id keep chat ids unique. */
  lemma UpdateKeepsChatIdsUnique(t: Table, id: UserId, f: User -> User)
    requires ChatIdsUnique(t)
    requires forall u :: f(u).telegramChatId == u.telegramChatId || f(u).telegramChatId == None
    ensures ChatIdsUnique(UpdateWhere(t, id, f))
  {
    var r := UpdateWhere(t, id, f);
    forall a, b | a in r && b in r && a != b && r[a].telegramChatId.Some?
      ensures r[a].telegramChatId != r[b].telegramChatId
    {
      assert t[a].telegramChatId == r[a].telegramChatId;
    }
  }

  /** Rewrites that never give a row a token keep tokens unique. */
  lemma UpdateKeepsTokensUnique(t: Table, id: UserId, f: User -> User)
    requires TokensUnique(t)
    requires forall u :: f(u).telegramToken == u.telegramToken || f(u).telegramToken == None
    ensures TokensUnique(UpdateWhere(t, id, f))
  {
    var r := UpdateWhere(t, id, f);
    forall a, b | a in r && b in r && a != b && r[a].telegramToken.Some?
      ensures r[a].telegramToken != r[b].telegramToken
    {
      assert t[a].telegramToken == r[a].telegramToken;
    }
  }

  lemma UpdateKeepsWellKeyed(t: Table, id: UserId, f: User -> User)
    requires WellKeyed(t)
    requires forall u :: f(u).id == u.id
    ensures WellKeyed(UpdateWhere(t, id, f))
  {
  }

  /** Logging a row out, clearing its token or toggling its daily flag
      keeps the table valid. */
  lemma ClearingUpdatesKeepValid(t: Table, id: UserId, enabled: bool)
    requires Valid(t)
    ensures Valid(UpdateWhere(t, id, LogoutRow()))
    ensures Valid(UpdateWhere(t, id, SetTokenRow(None)))
    ensures Valid(UpdateWhere(t, id, DailyRow(enabled)))
  {
    ClearingUpdateKeepsValid(t, id, LogoutRow());
    ClearingUpdateKeepsValid(t, id, SetTokenRow(None));
    ClearingUpdateKeepsValid(t, id, DailyRow(enabled));
  }

  /** A rewrite that keeps the row's id and never adds a chat id or a
      token keeps the table valid. */
  lemma ClearingUpdateKeepsValid(t: Table, id: UserId, f: User -> User)
    requires Valid(t)
    requires forall u :: f(u).id == u.id
    requires forall u :: f(u).telegramChatId == u.telegramChatId || f(u).telegramChatId == None
    requires forall u :: f(u).telegramToken == u.telegramToken || f(u).telegramToken == None
    ensures Valid(UpdateWhere(t, id, f))
  {
    UpdateKeepsWellKeyed(t, id, f);
    UpdateKeepsChatIdsUnique(t, id, f);
    UpdateKeepsTokensUnique(t, id, f);
  }

  /** Storing a token no other row holds keeps tokens unique. */
  lemma FreshTokenKeepsValid(t: Table, id: UserId, token: string)
    requires Valid(t)
    requires forall other :: other in t && other != id ==> t[other].telegramToken != Some(token)
    ensures Valid(UpdateWhere(t, id, SetTokenRow(Some(token))))
  {
    UpdateKeepsChatIdsUnique(t, id, SetTokenRow(Some(token)));
  }

  /** Linking a chat that no other row holds keeps the table valid. */
  lemma LinkKeepsValid(t: Table, id: UserId, chatId: int, username: Option<string>, locale: Option<string>)
    requires Valid(t)
    requires !ChatTakenByOther(t, id, chatId)
    ensures Valid(UpdateWhere(t, id, LinkRow(chatId, username, locale)))
  {
    UpdateKeepsTokensUnique(t, id, LinkRow(chatId, username, locale));
    var r := UpdateWhere(t, id, LinkRow(chatId, username, locale));
    forall a, b | a in r && b in r && a != b && r[a].telegramChatId.Some?
      ensures r[a].telegramChatId != r[b].telegramChatId
    {
      if a == id {
        assert r[b] == t[b];
      } else if b == id {
        assert r[a] == t[a];
      }
    }
  }

  function HoldsChat(chatId: int): User -> bool {
    (u: User) => u.telegramChatId == Some(chatId)
  }

  function HoldsToken(token: string): User -> bool {
    (u: User) => u.telegramToken == Some(token)
  }

  /** With chat ids unique, a lookup by chat id never finds two rows. */
  lemma ChatLookupAtMostOne(t: Table, chatId: int)
    requires ChatIdsUnique(t)
    ensures forall a, b :: a in RowsWhere(t, HoldsChat(chatId)) && b in RowsWhere(t, HoldsChat(chatId)) ==> a == b
  {
  }

  /** With tokens unique, a lookup by token never finds two rows. */
  lemma TokenLookupAtMostOne(t: Table, token: string)
    requires TokensUnique(t)
    ensures forall a, b :: a in RowsWhere(t, HoldsToken(token)) && b in RowsWhere(t, HoldsToken(token)) ==> a == b
  {
  }
}
