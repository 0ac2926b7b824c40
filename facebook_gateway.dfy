/** The back end's `facebook_auth` gateway
    (backend/src/app/api/modules/facebook/gateway.py): one record per
    owning admin (`owner_id` is unique), read by owner and upserted. */
module FacebookAuthGateway {
  import opened Wrappers
  import opened Users

  datatype FacebookAuth = FacebookAuth(ownerId: UserId, longToken: Option<string>)

  /** The records by owner; the unique constraint on `owner_id` makes this a map. */
  type AuthTable = map<UserId, FacebookAuth>

  /** Each record is stored under its own owner. */
  predicate OwnerKeyed(records: AuthTable) {
    forall o :: o in records ==> records[o].ownerId == o
  }

  /** `get_by_owner`: the owner's record, or None. */
  function ByOwner(records: AuthTable, owner: UserId): Option<FacebookAuth> {
    if owner in records then Some(records[owner]) else None
  }

  /** `set_token`: the owner's record gets the token, or a new record with
      the owner and the token is added. */
  function Upsert(records: AuthTable, owner: UserId, token: string): AuthTable {
    if owner in records then records[owner := records[owner].(longToken := Some(token))]
    else records[owner := FacebookAuth(owner, Some(token))]
  }

  class Gateway {
    var records: AuthTable

    constructor (records: AuthTable)
      ensures this.records == records
    {
      this.records := records;
    }

    method GetByOwner(owner: UserId) returns (r: Option<FacebookAuth>)
      ensures r.Some? <==> owner in records
      ensures r.Some? ==> r.value == records[owner]
    {
      r := if owner in records then Some(records[owner]) else None;
    }

    method SetToken(owner: UserId, token: string) returns (auth: FacebookAuth)
      modifies this
      ensures records == Upsert(old(records), owner, token)
      ensures auth == records[owner]
    {
      var existing := GetByOwner(owner);
      if existing.Some? {
        auth := existing.value.(longToken := Some(token));
      } else {
        auth := FacebookAuth(owner, Some(token));
      }
      records := records[owner := auth];
    }
  }

  // ---------------------------------------------------------------------

  /** After `set_token(o, t)` the owner's record holds `t` (and only its
      token changed), every other owner's record is as before, and the
      table stays keyed by owner. */
  lemma UpsertSpec(records: AuthTable, owner: UserId, token: string)
    requires OwnerKeyed(records)
    ensures ByOwner(Upsert(records, owner, token), owner) == Some(FacebookAuth(owner, Some(token)))
    ensures forall o :: o != owner ==> ByOwner(Upsert(records, owner, token), o) == ByOwner(records, o)
    ensures Upsert(records, owner, token).Keys == records.Keys + {owner}
    ensures OwnerKeyed(Upsert(records, owner, token))
  {
  }
}

/** The older service's `facebook_auth` gateway
    (src/app/api/modules/facebook/gateway.py): one shared record, read as
    the first row and upserted. */
module LegacyFacebookAuthGateway {
  import opened Wrappers

  datatype FacebookAuth = FacebookAuth(longToken: Option<string>)

  /** `select(...).limit(1)`: the first row, or None. */
  function First(records: seq<FacebookAuth>): Option<FacebookAuth> {
    if records == [] then None else Some(records[0])
  }

  /** `set_token`: the first row gets the token, or a single row with the
      token is added. */
  function SetShared(records: seq<FacebookAuth>, token: string): seq<FacebookAuth> {
    if records == [] then [FacebookAuth(Some(token))]
    else [records[0].(longToken := Some(token))] + records[1..]
  }

  class Gateway {
    var records: seq<FacebookAuth>

    constructor (records: seq<FacebookAuth>)
      ensures this.records == records
    {
      this.records := records;
    }

    method Get() returns (r: Option<FacebookAuth>)
      ensures r == First(records)
    {
      r := if records == [] then None else Some(records[0]);
    }

    method SetToken(token: string) returns (auth: FacebookAuth)
      modifies this
      ensures records == SetShared(old(records), token)
      ensures Some(auth) == First(records)
    {
      var existing := Get();
      if existing.Some? {
        auth := existing.value.(longToken := Some(token));
        records := [auth] + records[1..];
      } else {
        auth := FacebookAuth(Some(token));
        records := records + [auth];
      }
    }
  }

  // ---------------------------------------------------------------------

  /** From at most one record, `set_token(t)` leaves exactly one, and `get`
      then returns it with token `t`; any further rows are untouched. */
  lemma SetSharedSpec(records: seq<FacebookAuth>, token: string)
    ensures |records| <= 1 ==> |SetShared(records, token)| == 1
    ensures First(SetShared(records, token)) == Some(FacebookAuth(Some(token)))
    ensures records != [] ==> SetShared(records, token)[1..] == records[1..]
    ensures |SetShared(records, token)| == if records == [] then 1 else |records|
  {
  }
}
