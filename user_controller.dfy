/** The user route (backend/src/controllers/user.controller.ts), behind
    `authenticate`: the caller's own user, without the password. */
module UserController {
  import opened Base
  import opened UserModel
  import opened AuthService
  import opened Http

  /** `getUserHandler`: the user `req.userId` names, as its password-free view;
      not found when there is none. The tables are only read. */
  function GetUserHandler(db: AuthServer, req: Request): (r: Result<Response>)
    reads db, req
    ensures r.Ok? <==> req.userId.Some? && req.userId.value in db.users
    ensures r.Err? ==> r == Fail(NOT_FOUND, "user not found")
    ensures r.Ok? ==>
      && r.value.status == OK && r.value.cookies == []
      && r.value.body.UserJson?
      && WithPassword(r.value.body.user, db.users[req.userId.value].password)
         == (req.userId.value, db.users[req.userId.value])
  {
    if req.userId.Some? && req.userId.value in db.users then
      var userId := req.userId.value;
      Ok(Response(OK, [], UserJson(OmitPassword(userId, db.users[userId]))))
    else
      Fail(NOT_FOUND, "user not found")
  }
}
