/**
 * Each handler of the users package as a function from the table and the request to the
 * reply and the new table. The checks run in the source's order; each returns early.
 */
module Handlers {
  import opened Wrappers
  import opened UserModel
  import opened Persistence
  import opened Identity
  import opened Policy

  /** The row CreateUser builds: only five fields come from the body. */
  function NewUser(j: CreationUser): (u: User)
    ensures u.id == 0 && !u.staff && !u.admin
    ensures u.email == j.email && u.username == j.username && u.password == j.password
    ensures u.artist == j.artist && u.curator == j.curator
    ensures u.firstname == "" && u.lastname == ""
  {
    User(0, j.email, j.password, "", "", j.username, j.artist, j.curator, false, false)
  }

  /** POST /users: bind, refuse an existing or privileged record, hash, insert. */
  function CreateUser(db: Db, body: Option<CreationUser>, hash: string -> Option<string>): (r: (Reply, Db))
    requires Valid(db)
    ensures Valid(r.1)
    ensures r.0.outcome != Forbidden && r.0.outcome != NotFound
    ensures r.0.outcome != Ok ==> r.1 == db && r.0.body.None?
    ensures r.0.outcome == BadRequest <==> !CreationBindable(body)
    ensures r.0.outcome == InternalError <==> CreationBindable(body) && hash(body.value.password).None?
    ensures r.0.outcome == Ok ==>
      && CreationBindable(body)
      && hash(body.value.password).Some?
      && db.nextId !in db.rows
      && r.1.nextId == db.nextId + 1
      && r.1.rows.Keys == db.rows.Keys + {db.nextId}
      && (forall k :: k in db.rows ==> r.1.rows[k] == db.rows[k])
      && r.1.rows[db.nextId] == NewUser(body.value).(id := db.nextId, password := hash(body.value.password).value)
      && r.0.body == Some(ToJson(r.1.rows[db.nextId]))
  {
    if !CreationBindable(body) then (Reply(BadRequest, None), db)
    else
      var user := NewUser(body.value);
      if user.id != 0 then (Reply(BadRequest, None), db)
      else if user.staff || user.admin then (Reply(Forbidden, None), db)
      else match hash(user.password)
        case None => (Reply(InternalError, None), db)
        case Some(pw) =>
          var saved := user.(id := db.nextId, password := pw);
          (Reply(Ok, Some(ToJson(saved))), Db(db.rows[db.nextId := saved], db.nextId + 1))
  }

  /** GET /users/:id: parse the id, look the row up, serialise it. */
  function GetUser(db: Db, pathId: Option<int>): (r: Reply)
    ensures r.outcome == BadRequest <==> pathId.None?
    ensures r.outcome == NotFound <==> pathId.Some? && Lookup(db, pathId.value).None?
    ensures r.outcome == Ok <==> pathId.Some? && Lookup(db, pathId.value).Some?
    ensures r.outcome == Ok ==> r.body == Some(ToJson(Lookup(db, pathId.value).value))
    ensures r.outcome != Ok ==> r.body.None?
  {
    match pathId
    case None => Reply(BadRequest, None)
    case Some(id) =>
      match Lookup(db, id)
      case None => Reply(NotFound, None)
      case Some(user) => Reply(Ok, Some(ToJson(user)))
  }

  /** GET /me: serialise the principal; a claim matching no row yields the zero user. */
  function GetMe(db: Db, claim: string): (r: Reply)
    requires Valid(db)
    ensures r.outcome == Ok && r.body.Some?
    ensures Principal(db, claim).Some? ==> r.body.value == ToJson(Principal(db, claim).value)
    ensures Principal(db, claim).None? ==> r.body.value == ToJson(ZeroUser)
    ensures r.body.value.id == PrincipalId(db, claim)
  {
    match Principal(db, claim)
    case Some(me) => Reply(Ok, Some(ToJson(me)))
    case None => Reply(Ok, Some(ToJson(ZeroUser)))
  }

  /** DELETE /users/:id: parse, look the target up, refuse a foreign target, remove it. */
  function DeleteUser(db: Db, claim: string, pathId: Option<int>): (r: (Reply, Db))
    requires Valid(db)
    ensures Valid(r.1)
    ensures r.0.body.None?
    ensures r.0.outcome != Ok ==> r.1 == db
    ensures r.0.outcome == BadRequest <==> pathId.None?
    ensures r.0.outcome == NotFound <==> pathId.Some? && Lookup(db, pathId.value).None?
    ensures r.0.outcome == Forbidden <==>
      pathId.Some? && Lookup(db, pathId.value).Some? && pathId.value != PrincipalId(db, claim)
    ensures Principal(db, claim).None? ==> r.0.outcome != Ok
    ensures r.0.outcome == Ok ==>
      && Principal(db, claim).Some?
      && pathId == Some(Principal(db, claim).value.id as int)
      && r.1 == Db(db.rows - {Principal(db, claim).value.id}, db.nextId)
  {
    match pathId
    case None => (Reply(BadRequest, None), db)
    case Some(id) =>
      match Lookup(db, id)
      case None => (Reply(NotFound, None), db)
      case Some(user) =>
        if IsForeign(user.id, PrincipalId(db, claim)) then (Reply(Forbidden, None), db)
        else (Reply(Ok, None), Db(db.rows - {user.id}, db.nextId))
  }

  /**
   * PUT /users/:id as written: parse, bind the body, refuse a body without an id, refuse
   * flags the row at the PATH id lacks, refuse a BODY id that is not the principal's, save.
   */
  function UpdateUser(db: Db, claim: string, pathId: Option<int>, body: Option<UserJson>): (r: (Reply, Db))
    requires Valid(db)
    ensures Valid(r.1)
    ensures r.0.outcome != InternalError
    ensures r.0.outcome != Ok ==> r.1 == db && r.0.body.None?
    ensures r.0.outcome == BadRequest <==> pathId.None? || !UserBindable(body)
    ensures r.0.outcome == NotFound <==> pathId.Some? && UserBindable(body) && body.value.id == 0
    ensures pathId.Some? && UserBindable(body) && body.value.id != 0
            && Escalates(FromJson(body.value), LookupOrZero(db, pathId.value))
            ==> r.0.outcome == Forbidden
    ensures r.0.outcome == Forbidden <==>
      pathId.Some? && UserBindable(body) && body.value.id != 0
      && (Escalates(FromJson(body.value), LookupOrZero(db, pathId.value))
          || body.value.id != PrincipalId(db, claim))
    ensures r.0.outcome == Ok <==>
      pathId.Some? && UserBindable(body) && body.value.id != 0
      && !Escalates(FromJson(body.value), LookupOrZero(db, pathId.value))
      && body.value.id == PrincipalId(db, claim)
    ensures r.0.outcome == Ok ==>
      && pathId.Some? && UserBindable(body)
      && !Escalates(FromJson(body.value), LookupOrZero(db, pathId.value))
      && Principal(db, claim).Some?
      && body.value.id == Principal(db, claim).value.id
      && r.1 == Db(db.rows[body.value.id := FromJson(body.value)], db.nextId)
      && r.1.rows.Keys == db.rows.Keys
      && r.0.body == Some(body.value)
  {
    match pathId
    case None => (Reply(BadRequest, None), db)
    case Some(id) =>
      if !UserBindable(body) then (Reply(BadRequest, None), db)
      else
        var user := FromJson(body.value);
        if user.id == 0 then (Reply(NotFound, None), db)
        else if Escalates(user, LookupOrZero(db, id)) then (Reply(Forbidden, None), db)
        else if IsForeign(user.id, PrincipalId(db, claim)) then (Reply(Forbidden, None), db)
        else (Reply(Ok, Some(ToJson(user))), Db(db.rows[user.id := user], db.nextId))
  }

  /**
   * PUT /users/:id corrected: the escalation guard compares the body with the row it will
   * overwrite (the one at the body's id), and the save keeps that row's password hash and
   * admin flag, which a bound body can never carry.
   */
  function UpdateUserCorrected(db: Db, claim: string, pathId: Option<int>, body: Option<UserJson>): (r: (Reply, Db))
    requires Valid(db)
    ensures Valid(r.1)
    ensures r.0.outcome != Ok ==> r.1 == db && r.0.body.None?
    ensures r.0.outcome == BadRequest <==> pathId.None? || !UserBindable(body)
    ensures r.0.outcome != InternalError
    ensures r.0.outcome == NotFound <==> pathId.Some? && UserBindable(body) && body.value.id == 0
    ensures r.0.outcome == Forbidden <==>
      pathId.Some? && UserBindable(body) && body.value.id != 0
      && (Escalates(FromJson(body.value), LookupOrZero(db, body.value.id))
          || body.value.id != PrincipalId(db, claim))
    ensures r.0.outcome == Ok <==>
      pathId.Some? && UserBindable(body) && body.value.id != 0
      && !Escalates(FromJson(body.value), LookupOrZero(db, body.value.id))
      && body.value.id == PrincipalId(db, claim)
    ensures r.0.outcome == Ok ==>
      && Principal(db, claim).Some?
      && body.value.id == Principal(db, claim).value.id
      && body.value.id in db.rows
      && body.value.id in r.1.rows
      && r.1 == Db(db.rows[body.value.id := r.1.rows[body.value.id]], db.nextId)
      && GrantsNothing(db.rows[body.value.id], r.1.rows[body.value.id])
      && r.1.rows[body.value.id].password == db.rows[body.value.id].password
      && r.1.rows[body.value.id].admin == db.rows[body.value.id].admin
      && r.1.rows[body.value.id]
         == FromJson(body.value).(password := db.rows[body.value.id].password, admin := db.rows[body.value.id].admin)
      && ToJson(r.1.rows[body.value.id]) == body.value
      && r.0.body == Some(body.value)
  {
    match pathId
    case None => (Reply(BadRequest, None), db)
    case Some(id) =>
      if !UserBindable(body) then (Reply(BadRequest, None), db)
      else
        var user := FromJson(body.value);
        if user.id == 0 then (Reply(NotFound, None), db)
        else
          var stored := LookupOrZero(db, user.id);
          if Escalates(user, stored) then (Reply(Forbidden, None), db)
          else if IsForeign(user.id, PrincipalId(db, claim)) then (Reply(Forbidden, None), db)
          else
            var saved := user.(password := stored.password, admin := stored.admin);
            (Reply(Ok, Some(ToJson(saved))), Db(db.rows[user.id := saved], db.nextId))
  }

  /** With a hasher that never returns its input, sign-up never stores the plaintext. */
  lemma CreateStoresNoPlaintext(db: Db, body: Option<CreationUser>, hash: string -> Option<string>)
    requires Valid(db)
    requires forall p :: hash(p) != Some(p)
    requires CreateUser(db, body, hash).0.outcome == Ok
    ensures db.nextId in CreateUser(db, body, hash).1.rows
    ensures CreateUser(db, body, hash).1.rows[db.nextId].password != body.value.password
  {
  }
}
