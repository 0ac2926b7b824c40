/** The older back end's Facebook service (src/app/api/modules/facebook/service.py):
    the time range of a report, the shared access token, the account
    access rule, the role-based account list, and the order in which the
    endpoints check access, read the token and fetch. The Graph API fetches
    are oracles passed in; the clock is the `now` argument. */
module FacebookService {
  import opened Wrappers
  import opened Json
  import opened Calendar
  import opened Users
  import opened LegacyFacebookAuthGateway

  const NotConnected := HttpError(400, "Facebook not connected. Admin must authenticate first.")
  const AccessDenied := HttpError(403, "Access denied to this ad account.")

  /** `FacebookSDKService.get_current_month_range` at time `now`. */
  function CurrentMonthRange(now: Date): TimeRange {
    TimeRange(Iso(MonthStart(now)), Iso(now))
  }

  /** `_build_time_range`. */
  function BuildTimeRange(since: Option<Date>, until: Option<Date>, now: Date): TimeRange {
    if since.Some? && until.Some? then TimeRange(Iso(since.value), Iso(until.value))
    else CurrentMonthRange(now)
  }

  /** Both dates given: each is formatted as it is, with no check that
      `since` comes first, and the clock is not read; otherwise the current
      month up to today. */
  lemma BuildTimeRangeSpec(since: Option<Date>, until: Option<Date>, now: Date, later: Date)
    ensures since.Some? && until.Some? ==>
              BuildTimeRange(since, until, now).since == Iso(since.value) &&
              BuildTimeRange(since, until, now).until == Iso(until.value)
    ensures since.None? || until.None? ==>
              BuildTimeRange(since, until, now) == TimeRange(Iso(now.(day := 1)), Iso(now))
    ensures since.Some? && until.Some? ==> BuildTimeRange(since, until, now) == BuildTimeRange(since, until, later)
  {
  }

  /** `_get_access_token`: the shared record's token, or 400. */
  function AccessToken(records: seq<FacebookAuth>): Result<string, HttpError> {
    match First(records)
    case None => Failure(NotConnected)
    case Some(auth) =>
      if auth.longToken.None? || auth.longToken.value == "" then Failure(NotConnected)
      else Success(auth.longToken.value)
  }

  lemma AccessTokenSpec(records: seq<FacebookAuth>)
    ensures AccessToken(records).Success? <==>
              records != [] && records[0].longToken.Some? && records[0].longToken.value != ""
    ensures AccessToken(records).Success? ==> Some(AccessToken(records).value) == records[0].longToken
    ensures AccessToken(records).Failure? ==> AccessToken(records).error.status == 400
  {
  }

  /** `_check_account_access`. */
  function CheckAccountAccess(user: User, accountId: string): Result<(), HttpError> {
    if user.isAdmin then Success(())
    else if user.adAccountId != Some(accountId) then Failure(AccessDenied)
    else Success(())
  }

  lemma CheckAccountAccessSpec(user: User, accountId: string)
    ensures CheckAccountAccess(user, accountId).Success? <==> user.isAdmin || user.adAccountId == Some(accountId)
    ensures CheckAccountAccess(user, accountId).Failure? ==> CheckAccountAccess(user, accountId).error.status == 403
  {
  }

  /** The account objects a non-admin user with account `id` may see. */
  function MatchingAccounts(accounts: seq<Object>, id: string): seq<Object> {
    if accounts == [] then []
    else
      MatchingAccounts(accounts[..|accounts| - 1], id) +
        (if Get(accounts[|accounts| - 1], "account_id") == Str(id) then [accounts[|accounts| - 1]] else [])
  }

  /** `get_ad_accounts`: the token is read before the fetch; a Graph API
      error raised by the fetch is passed on unchanged; admins see every
      account, users without an account none, and other users the accounts
      whose `account_id` is theirs. */
  function GetAdAccounts(user: User, records: seq<FacebookAuth>,
                         fetchAccounts: string -> Result<seq<Object>, HttpError>)
    : Result<seq<Object>, HttpError>
  {
    match AccessToken(records)
    case Failure(e) => Failure(e)
    case Success(token) =>
      match fetchAccounts(token)
      case Failure(e) => Failure(e)
      case Success(all) =>
        if user.isAdmin then Success(all)
        else if user.adAccountId.None? || user.adAccountId.value == "" then Success([])
        else Success(MatchingAccounts(all, user.adAccountId.value))
  }

  /** The filtered list keeps exactly the matching accounts, in order. */
  lemma {:induction false} MatchingAccountsSpec(accounts: seq<Object>, id: string)
    ensures forall a :: a in MatchingAccounts(accounts, id) <==> a in accounts && Get(a, "account_id") == Str(id)
    ensures |MatchingAccounts(accounts, id)| <= |accounts|
    ensures (forall a :: a in accounts ==> Get(a, "account_id") == Str(id)) ==> MatchingAccounts(accounts, id) == accounts
  {
    if accounts != [] {
      var n := |accounts| - 1;
      MatchingAccountsSpec(accounts[..n], id);
      assert accounts == accounts[..n] + [accounts[n]];
    }
  }

  /** The call fails exactly when the token is missing or the fetch fails,
      with that error; an admin sees the whole list, and a non-admin user
      with an account sees exactly the fetched accounts that carry it. */
  lemma GetAdAccountsSpec(user: User, records: seq<FacebookAuth>,
                          fetchAccounts: string -> Result<seq<Object>, HttpError>)
    ensures AccessToken(records).Failure? ==>
              GetAdAccounts(user, records, fetchAccounts) == Failure(AccessToken(records).error)
    ensures AccessToken(records).Success? && fetchAccounts(AccessToken(records).value).Failure? ==>
              GetAdAccounts(user, records, fetchAccounts) == Failure(fetchAccounts(AccessToken(records).value).error)
    ensures GetAdAccounts(user, records, fetchAccounts).Success? <==>
              AccessToken(records).Success? && fetchAccounts(AccessToken(records).value).Success?
    ensures GetAdAccounts(user, records, fetchAccounts).Success? && user.isAdmin ==>
              GetAdAccounts(user, records, fetchAccounts).value == fetchAccounts(AccessToken(records).value).value
    ensures GetAdAccounts(user, records, fetchAccounts).Success? && !user.isAdmin ==>
              forall a :: a in GetAdAccounts(user, records, fetchAccounts).value ==>
                user.adAccountId.Some? && Get(a, "account_id") == Str(user.adAccountId.value)
    ensures GetAdAccounts(user, records, fetchAccounts).Success? && !user.isAdmin
            && user.adAccountId.Some? && user.adAccountId.value != "" ==>
              forall a :: (a in fetchAccounts(AccessToken(records).value).value
                             && Get(a, "account_id") == Str(user.adAccountId.value)) ==>
                a in GetAdAccounts(user, records, fetchAccounts).value
  {
    if AccessToken(records).Success? && fetchAccounts(AccessToken(records).value).Success?
       && !user.isAdmin && user.adAccountId.Some? && user.adAccountId.value != "" {
      MatchingAccountsSpec(fetchAccounts(AccessToken(records).value).value, user.adAccountId.value);
    }
  }

  /** `get_campaigns` and `get_adsets`: the account check first, then the
      token, then the fetch over the report's time range. */
  function AccountScoped<R>(user: User, accountId: string, since: Option<Date>, until: Option<Date>, now: Date,
                            records: seq<FacebookAuth>, fetch: (string, TimeRange) -> R): Result<R, HttpError>
  {
    match CheckAccountAccess(user, accountId)
    case Failure(e) => Failure(e)
    case Success(_) =>
      match AccessToken(records)
      case Failure(e) => Failure(e)
      case Success(token) => Success(fetch(token, BuildTimeRange(since, until, now)))
  }

  /** `get_ads`: the token, then the fetch; there is no account check. */
  function GetAds<R>(since: Option<Date>, until: Option<Date>, now: Date,
                     records: seq<FacebookAuth>, fetch: (string, TimeRange) -> R): Result<R, HttpError>
  {
    match AccessToken(records)
    case Failure(e) => Failure(e)
    case Success(token) => Success(fetch(token, BuildTimeRange(since, until, now)))
  }

  /** A user without access gets 403 whatever the token store holds, so
      the access check comes before the token; a user with access gets
      exactly what the token-guarded fetch gives. */
  lemma AccessCheckedFirst<R>(user: User, accountId: string, since: Option<Date>, until: Option<Date>, now: Date,
                              records: seq<FacebookAuth>, fetch: (string, TimeRange) -> R)
    ensures CheckAccountAccess(user, accountId).Failure? ==>
              AccountScoped(user, accountId, since, until, now, records, fetch) == Failure(AccessDenied)
    ensures CheckAccountAccess(user, accountId).Success? ==>
              AccountScoped(user, accountId, since, until, now, records, fetch) == GetAds(since, until, now, records, fetch)
    ensures AccountScoped(user, accountId, since, until, now, records, fetch).Success? ==>
              (user.isAdmin || user.adAccountId == Some(accountId)) && AccessToken(records).Success?
  {
  }

  /** `get_ads` serves any caller once the token is there. */
  lemma GetAdsUnchecked<R>(since: Option<Date>, until: Option<Date>, now: Date,
                           records: seq<FacebookAuth>, fetch: (string, TimeRange) -> R)
    ensures GetAds(since, until, now, records, fetch).Success? <==> AccessToken(records).Success?
    ensures GetAds(since, until, now, records, fetch).Success? ==>
              GetAds(since, until, now, records, fetch).value ==
                fetch(AccessToken(records).value, BuildTimeRange(since, until, now))
  {
  }

  /** The service's one write. */
  class Service {
    const gateway: Gateway

    constructor (gateway: Gateway)
      ensures this.gateway == gateway
    {
      this.gateway := gateway;
    }

    /** `exchange_token`: the long-lived token from the exchange response
        is stored as the shared record; a response without one raises
        `KeyError` before anything is written. */
    method ExchangeToken(data: Object) returns (r: Result<(), string>)
      requires "access_token" in data ==> data["access_token"].Str?
      modifies gateway
      ensures "access_token" !in data ==> r == Failure("KeyError") && gateway.records == old(gateway.records)
      ensures "access_token" in data ==>
                r == Success(()) && gateway.records == SetShared(old(gateway.records), data["access_token"].s)
      ensures "access_token" in data ==>
                (AccessToken(gateway.records) ==
                   if data["access_token"].s == "" then Failure(NotConnected) else Success(data["access_token"].s))
    {
      if "access_token" !in data {
        return Failure("KeyError");
      }
      var longToken := data["access_token"].s;
      var _ := gateway.SetToken(longToken);
      r := Success(());
    }
  }
}
