/** `GET` and `POST /api/v1/users`: the admin-only paged listing of users and the creation of
    a user, where only a super admin may create an admin and nobody a super admin. */
module UsersV1 {
  import opened Js
  import opened Schema
  import opened Api
  import opened Pagination
  import opened Auth

  /** A listed user: the selected columns, without the password hash. */
  datatype PublicUser = PublicUser(id: int, name: string, email: string, phone: string, role: string,
                                   active: Status, createdAt: int)

  function Public(u: UserRow): PublicUser {
    PublicUser(u.id, u.name, u.email, u.phone, u.role, u.active, u.createdAt)
  }

  datatype UsersListing = UsersListing(data: seq<PublicUser>, order: Order, meta: PageMeta)

  /** The page of `users`, a table given in `createdAt` descending order, for a valid page and
      limit. */
  function Page(users: seq<UserRow>, page: JsNumber, limit: JsNumber): (data: seq<PublicUser>)
    requires ValidPagination(page, limit)
    ensures |data| == if Skip(page, limit).value >= |users| then 0 else Min(limit.value, |users| - Skip(page, limit).value)
    ensures forall i :: 0 <= i < |data| ==> data[i] == Public(users[Skip(page, limit).value + i])
  {
    var window := Window(users, Skip(page, limit).value, limit.value);
    seq(|window|, i requires 0 <= i < |window| => Public(window[i]))
  }

  /** `GET /api/v1/users`. Page and limit default to 1 and 10 (an empty parameter counts as
      missing); `dbOk` says whether the database calls succeed. */
  function GetUsers(headers: map<string, string>, searchParams: map<string, string>, users: seq<UserRow>,
                    dbOk: bool): (r: Reply<UsersListing>)
    ensures !IsAdmin(GetAuthenticatedUser(headers)) <==> r == Fail(403, Forbidden)
    ensures r.status == 200 <==>
      var page := ParseInt(OrDefault(Get(searchParams, "page"), "1"));
      var limit := ParseInt(OrDefault(Get(searchParams, "limit"), "10"));
      IsAdmin(GetAuthenticatedUser(headers)) && ValidPagination(page, limit) && dbOk
    ensures r.status == 200 ==>
      var page := ParseInt(OrDefault(Get(searchParams, "page"), "1"));
      var limit := ParseInt(OrDefault(Get(searchParams, "limit"), "10"));
      && r.body.Payload?
      && r.body.value.data == Page(users, page, limit)
      && r.body.value.meta == Meta(|users|, page, limit)
    ensures r.status in {200, 400, 403, 500}
  {
    var authUser := GetAuthenticatedUser(headers);
    if !IsAdmin(authUser) then Fail(403, Forbidden)
    else
      var page := ParseInt(OrDefault(Get(searchParams, "page"), "1"));
      var limit := ParseInt(OrDefault(Get(searchParams, "limit"), "10"));
      if !ValidPagination(page, limit) then Fail(400, InvalidPagination)
      else if !dbOk then Fail(500, InternalError)
      else Reply(200, Payload(UsersListing(Page(users, page, limit), CreatedAtDesc, Meta(|users|, page, limit))))
  }

  /** The fields of a user-creation body; None for an absent (or non-string) field. */
  datatype UserBody = UserBody(name: Option<string>, email: Option<string>, password: Option<string>,
                               phone: Option<string>, role: Option<string>)

  predicate HasAllFields(b: UserBody) {
    Truthy(b.name) && Truthy(b.email) && Truthy(b.password) && Truthy(b.phone) && Truthy(b.role)
  }

  /** The row a creation inserts: the password replaced by its hash, and active. */
  function NewUser(b: UserBody, newId: int, hash: string -> string, now: int): UserRow
    requires HasAllFields(b)
  {
    UserRow(newId, b.name.value, b.email.value, hash(b.password.value), b.phone.value, b.role.value, now, Active)
  }

  /** The checks of a creation after the caller is known to be an admin: missing fields, then
      ADMIN only by a super admin, then never SUPER_ADMIN. None when the body passes. */
  function CreationRefusal(b: UserBody, callerIsSuperAdmin: bool): (refusal: Option<Reply<UserRow>>)
    ensures refusal.None? <==>
      HasAllFields(b) && b.role.value != "SUPER_ADMIN" && (b.role.value == "ADMIN" ==> callerIsSuperAdmin)
  {
    if !HasAllFields(b) then Some(Fail(400, MissingFields))
    else if b.role.value == "ADMIN" && !callerIsSuperAdmin then Some(Fail(403, OnlySuperAdminCreatesAdmin))
    else if b.role.value == "SUPER_ADMIN" then Some(Fail(403, NoSuperAdminCreation))
    else None
  }

  /** `POST /api/v1/users`. `body` is None when the request body is not JSON, `hash` is
      the password hash, `newId` and `now` the new row's id and creation date. */
  function PostUser(headers: map<string, string>, body: Option<UserBody>, users: seq<UserRow>, dbOk: bool,
                    hash: string -> string, newId: int, now: int): (r: Handled<UserRow, seq<UserRow>>)
    ensures !IsAdmin(GetAuthenticatedUser(headers)) ==> r == Handled(Fail(403, Forbidden), users)
    ensures IsAdmin(GetAuthenticatedUser(headers)) && body.None? ==> r == Handled(Fail(500, InternalError), users)
    ensures r.reply.status == 201 <==>
      && IsAdmin(GetAuthenticatedUser(headers)) && body.Some?
      && CreationRefusal(body.value, IsSuperAdmin(GetAuthenticatedUser(headers))).None? && dbOk
    ensures r.reply.status == 201 ==>
      && r.reply == Reply(201, Payload(NewUser(body.value, newId, hash, now)))
      && r.store == users + [NewUser(body.value, newId, hash, now)]
    ensures r.reply.status != 201 ==> r.store == users
  {
    var authUser := GetAuthenticatedUser(headers);
    if !IsAdmin(authUser) then Handled(Fail(403, Forbidden), users)
    else if body.None? then Handled(Fail(500, InternalError), users)
    else
      var refusal := CreationRefusal(body.value, IsSuperAdmin(authUser));
      if refusal.Some? then Handled(refusal.value, users)
      else if !dbOk then Handled(Fail(500, InternalError), users)
      else
        var newUser := NewUser(body.value, newId, hash, now);
        Handled(Reply(201, Payload(newUser)), users + [newUser])
  }

  /** No caller can add a super admin, only a super admin can add an admin, and every user
      added is active and stores the hash of the password the body gave. */
  lemma CreationNeverEscalates(headers: map<string, string>, body: Option<UserBody>, users: seq<UserRow>,
                               dbOk: bool, hash: string -> string, newId: int, now: int)
    ensures var r := PostUser(headers, body, users, dbOk, hash, newId, now);
      r.store != users ==>
        var added := r.store[|users|];
        && |r.store| == |users| + 1
        && added.role != "SUPER_ADMIN"
        && (added.role == "ADMIN" ==> IsSuperAdmin(GetAuthenticatedUser(headers)))
        && added.active == Active
        && added.password == hash(body.value.password.value)
  {
  }

  /** Two consecutive pages of a limit list the same users as one page of twice that limit. */
  lemma PagesOfUsersTile(users: seq<UserRow>, page: nat, limit: nat)
    requires page >= 1 && limit >= 1
    ensures Page(users, Int(2 * page - 1), Int(limit)) + Page(users, Int(2 * page), Int(limit))
         == Page(users, Int(page), Int(2 * limit))
  {
    var s := (2 * page - 2) * limit;
    assert Skip(Int(2 * page - 1), Int(limit)).value == s;
    assert Skip(Int(2 * page), Int(limit)).value == s + limit;
    assert Skip(Int(page), Int(2 * limit)).value == s;
    WindowsTile(users, s, limit);
    var a, b := Page(users, Int(2 * page - 1), Int(limit)), Page(users, Int(2 * page), Int(limit));
    var c := Page(users, Int(page), Int(2 * limit));
    assert |a + b| == |c|;
    forall i | 0 <= i < |c| ensures (a + b)[i] == c[i] {
      if i >= |a| {
        assert (a + b)[i] == b[i - |a|];
      }
    }
  }
}
