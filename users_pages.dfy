/** `/api/users` of the pages router: the admin-only listing and creation of users for the
    request's authenticated user, answering 405 to any other method. */
module UsersPages {
  import opened Js
  import opened Schema
  import opened Api
  import opened Pagination
  import Auth
  import opened UsersV1

  datatype UsersPayload = Listed(listing: UsersListing) | CreatedUser(user: UserRow)

  /** The handler behind `authenticate`, which supplies the request's `user` row. `body` is the
      parsed request body, `dbOk` whether the database calls succeed, `hash` the password
      hash, `newId` and `now` the new row's id and creation date. */
  function Handle(method_: string, user: UserRow, query: map<string, string>, body: UserBody,
                  users: seq<UserRow>, dbOk: bool, hash: string -> string, newId: int, now: int)
    : (r: Handled<UsersPayload, seq<UserRow>>)
    ensures method_ != "GET" && method_ != "POST" ==> r == Handled(Fail(405, MethodNotAllowed), users)
    ensures (method_ == "GET" || method_ == "POST") && !Auth.IsAdminRole(user.role) ==>
      r == Handled(Fail(403, Forbidden), users)
    ensures method_ == "GET" ==> r.store == users && (r.reply.status == 200 <==>
      var page := ParseInt(Defaulted(Get(query, "page"), "1"));
      var limit := ParseInt(Defaulted(Get(query, "limit"), "10"));
      Auth.IsAdminRole(user.role) && ValidPagination(page, limit) && dbOk)
    ensures method_ == "GET" && r.reply.status == 200 ==>
      var page := ParseInt(Defaulted(Get(query, "page"), "1"));
      var limit := ParseInt(Defaulted(Get(query, "limit"), "10"));
      r.reply.body == Payload(Listed(UsersListing(Page(users, page, limit), CreatedAtDesc, Meta(|users|, page, limit))))
    ensures method_ == "POST" ==> (r.reply.status == 201 <==>
      Auth.IsAdminRole(user.role) && CreationRefusal(body, user.role == "SUPER_ADMIN").None? && dbOk)
    ensures method_ == "POST" && r.reply.status == 201 ==>
      && r.reply.body == Payload(CreatedUser(NewUser(body, newId, hash, now)))
      && r.store == users + [NewUser(body, newId, hash, now)]
    ensures r.reply.status != 201 ==> r.store == users
  {
    if method_ == "POST" then
      if !Auth.IsAdminRole(user.role) then Handled(Fail(403, Forbidden), users)
      else
        var refusal := CreationRefusal(body, user.role == "SUPER_ADMIN");
        if refusal.Some? then Handled(Fail(refusal.value.status, refusal.value.body.error), users)
        else if !dbOk then Handled(Fail(500, InternalError), users)
        else
          var newUser := NewUser(body, newId, hash, now);
          Handled(Reply(201, Payload(CreatedUser(newUser))), users + [newUser])
    else if method_ == "GET" then
      if !Auth.IsAdminRole(user.role) then Handled(Fail(403, Forbidden), users)
      else
        var pageNumber := ParseInt(Defaulted(Get(query, "page"), "1"));
        var pageSize := ParseInt(Defaulted(Get(query, "limit"), "10"));
        if !ValidPagination(pageNumber, pageSize) then Handled(Fail(400, InvalidPagination), users)
        else if !dbOk then Handled(Fail(500, InternalError), users)
        else
          Handled(Reply(200, Payload(Listed(UsersListing(Page(users, pageNumber, pageSize), CreatedAtDesc,
                                                             Meta(|users|, pageNumber, pageSize))))), users)
    else Handled(Fail(405, MethodNotAllowed), users)
  }

  /** For a caller whose role header carries the user's role, a creation ends the same way on
      both routers: the same status and the same table. */
  lemma CreationAgreesWithV1(headers: map<string, string>, user: UserRow, query: map<string, string>,
                             body: UserBody, users: seq<UserRow>, dbOk: bool, hash: string -> string,
                             newId: int, now: int)
    requires "x-user-role" in headers && headers["x-user-role"] == user.role && user.role != ""
    ensures var v1 := PostUser(headers, Some(body), users, dbOk, hash, newId, now);
      var pages := Handle("POST", user, query, body, users, dbOk, hash, newId, now);
      v1.reply.status == pages.reply.status && v1.store == pages.store
  {
    var caller := Auth.GetAuthenticatedUser(headers);
    assert caller.role == user.role;
    var v1 := PostUser(headers, Some(body), users, dbOk, hash, newId, now);
    var pages := Handle("POST", user, query, body, users, dbOk, hash, newId, now);
    var refusal := CreationRefusal(body, user.role == "SUPER_ADMIN");
    if !Auth.IsAdminRole(user.role) {
      assert v1.reply.status == 403 && pages.reply.status == 403;
    } else if refusal.Some? {
      assert v1.reply == refusal.value;
      assert pages.reply.status == refusal.value.status;
    } else if !dbOk {
      assert v1.reply.status == 500 && pages.reply.status == 500;
    } else {
      assert v1.reply.status == 201 && pages.reply.status == 201;
    }
  }

  /** An empty `page` parameter is page 1 to the v1 route... */
  lemma EmptyPageIsFirstPageForV1(headers: map<string, string>, query: map<string, string>, users: seq<UserRow>)
    requires Auth.IsAdmin(Auth.GetAuthenticatedUser(headers))
    requires "page" in query && query["page"] == "" && "limit" !in query
    ensures GetUsers(headers, query, users, true).status == 200
  {
    DefaultPagination();
  }

  /** ...but NaN, so a 400, to this one. */
  lemma EmptyPageIsRejected(user: UserRow, query: map<string, string>, body: UserBody, users: seq<UserRow>,
                            hash: string -> string, newId: int, now: int)
    requires Auth.IsAdminRole(user.role)
    requires "page" in query && query["page"] == "" && "limit" !in query
    ensures Handle("GET", user, query, body, users, true, hash, newId, now).reply == Fail(400, InvalidPagination)
  {
    DefaultPagination();
  }

  lemma DefaultPagination()
    ensures ParseInt("") == NaN
    ensures ValidPagination(ParseInt("1"), ParseInt("10"))
  {
    ParseIntOfIntToString(1);
    ParseIntOfIntToString(10);
    assert IntToString(1) == "1";
    assert IntToString(10) == "10";
  }
}
