/** The CoAP `users` endpoint of the engine: its parameter getter, the token
    check and id pinning of PUT, and DELETE. */
module UserCoap {
  import opened Wrappers
  import opened JavaText
  import opened CoapCodes
  import opened QueryParams
  import ResourceCoap
  import StreamCoap

  /** The user getter checks what the two-key resource getter checks. */
  const TwoUserRule := ResourceCoap.TwoResourceRule

  method GetTwoParameters(queries: seq<string>) returns (r: Checked)
    ensures r == Validate(ParamsOf(queries), TwoUserRule)
    ensures r.Accepted? <==>
              ParamsOf(queries).Some?
              && KeySet(ParamsOf(queries).value) == {"user", "key"}
              && HasLong(ParamsOf(queries).value, "user")
  {
    var parsed := BuildParameters(queries);
    r := Validate(parsed, TwoUserRule);
    if parsed.Some? {
      ResourceCoap.TwoRuleVerdict(parsed.value);
    }
  }

  /** A user as stored; a null token is None. */
  datatype UserRecord = UserRecord(id: int, username: string, firstName: string, lastName: string,
                                   email: string, token: Option<string>)

  /** The user rows, by id. */
  class UserTable {
    var users: map<int, UserRecord>

    constructor (users: map<int, UserRecord>)
      ensures this.users == users
    {
      this.users := users;
    }

    /** Each row is stored under its own id. */
    predicate Valid()
      reads this
    {
      forall k | k in users :: users[k].id == k
    }

    /** `updateUser(id, username, firstName, lastName, email)`: the four
        columns of the row with that id, if there is one. */
    method UpdateUser(u: UserRecord)
      modifies this
      ensures old(Valid()) ==> Valid()
      ensures users == if u.id in old(users)
                       then old(users)[u.id := old(users)[u.id].(username := u.username, firstName := u.firstName,
                                                                 lastName := u.lastName, email := u.email)]
                       else old(users)
    {
      if u.id in users {
        var row := users[u.id];
        users := users[u.id := row.(username := u.username, firstName := u.firstName,
                                    lastName := u.lastName, email := u.email)];
      }
    }
  }

  datatype PutAnswer =
    | NotAccepted(route: StreamCoap.GetRoute)
    | Unreadable
    /** no such user, or a user without a token: the handler throws */
    | PutThrew
    /** the token is not the key: a FORBIDDEN `WebApplicationException` is
        thrown, which sends no CoAP answer */
    | Denied
    | Updated(user: UserRecord)

  /** PUT: only the holder of the user's token may update the user, and the
      update handed to `User.update` has its id forced to the query user.
      `merge` is `User.update`, which is not part of this model; when the
      merged user keeps the query user's id, only that user's row changes. */
  method HandlePut(table: UserTable, queries: seq<string>, body: Option<UserRecord>,
                   merge: (UserRecord, UserRecord) -> UserRecord)
    returns (r: PutAnswer)
    modifies table
    ensures Validate(ParamsOf(queries), TwoUserRule).Accepted? <==> !r.NotAccepted?
    ensures r.Unreadable? <==> !r.NotAccepted? && body.None?
    ensures !r.NotAccepted? && body.Some? ==>
              var m := ParamsOf(queries).value;
              var userId := ParseLong(Get(m, "user").value).value;
              var key := Get(m, "key").value;
              (r.PutThrew? <==> userId !in old(table.users) || old(table.users)[userId].token.None?)
              && (r.Denied? <==> userId in old(table.users) && old(table.users)[userId].token.Some?
                                 && old(table.users)[userId].token.value != key)
              && (r.Updated? ==>
                    r.user == merge(old(table.users)[userId], body.value.(id := userId))
                    && old(table.users)[userId].token == Some(key))
    ensures !r.Updated? ==> table.users == old(table.users)
    ensures old(table.Valid()) ==> table.Valid()
    ensures r.Updated? && r.user.id == ParseLong(Get(ParamsOf(queries).value, "user").value).value ==>
              var userId := r.user.id;
              table.users.Keys == old(table.users).Keys
              && (forall k | k in old(table.users) && k != userId :: table.users[k] == old(table.users)[k])
              && table.users[userId].token == old(table.users)[userId].token
    ensures r.Updated? ==>
              table.users == if r.user.id in old(table.users)
                             then old(table.users)[r.user.id := old(table.users)[r.user.id].(
                                    username := r.user.username, firstName := r.user.firstName,
                                    lastName := r.user.lastName, email := r.user.email)]
                             else old(table.users)
  {
    var p := GetTwoParameters(queries);
    if !p.Accepted? {
      return NotAccepted(StreamCoap.Refusal(p));
    }
    var userId := ParseLong(Get(p.params, "user").value).value;
    var key := Get(p.params, "key").value;
    if body.None? {
      return Unreadable;
    }
    if userId !in table.users || table.users[userId].token.None? {
      return PutThrew;
    }
    var user := table.users[userId];
    if user.token.value != key {
      return Denied;
    }
    var newuser := body.value.(id := userId);
    user := merge(user, newuser);
    table.UpdateUser(user);
    r := Updated(user);
  }

  /** Users cannot be deleted over CoAP. */
  function HandleDelete(): (r: ResponseCode)
    ensures r == Forbidden && !r.IsSuccess()
  {
    Forbidden
  }
}
