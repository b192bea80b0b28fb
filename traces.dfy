/**
 * Sequences of requests served one after another against the same table, and what they
 * can do to the privilege flags. `AsWritten` serves PUT /users/:id as the source does;
 * `Corrected` serves it with Handlers.UpdateUserCorrected.
 */
module Traces {
  import opened Wrappers
  import opened UserModel
  import opened Persistence
  import opened Policy
  import Handlers

  /** One request, carrying what the transport layer extracted from it. Each sign-up
      carries its own hasher, since bcrypt salts every hash afresh. */
  datatype Request =
    | Create(signup: Option<CreationUser>, hash: string -> Option<string>)
    | Get(pathId: Option<int>)
    | Me(claim: string)
    | Delete(claim: string, pathId: Option<int>)
    | Update(claim: string, pathId: Option<int>, body: Option<UserJson>)

  datatype Build = AsWritten | Corrected

  function Serve(build: Build, db: Db, req: Request): (r: (Reply, Db))
    requires Valid(db)
    ensures Valid(r.1)
    ensures req.Get? || req.Me? ==> r.1 == db
  {
    match req
    case Create(body, hash) => Handlers.CreateUser(db, body, hash)
    case Get(pathId) => (Handlers.GetUser(db, pathId), db)
    case Me(claim) => (Handlers.GetMe(db, claim), db)
    case Delete(claim, pathId) => Handlers.DeleteUser(db, claim, pathId)
    case Update(claim, pathId, body) =>
      if build == AsWritten then Handlers.UpdateUser(db, claim, pathId, body)
      else Handlers.UpdateUserCorrected(db, claim, pathId, body)
  }

  /** The table after serving `reqs` in order. */
  function Run(build: Build, db: Db, reqs: seq<Request>): (final: Db)
    requires Valid(db)
    ensures Valid(final)
    decreases |reqs|
  {
    if reqs == [] then db else Run(build, Serve(build, db, reqs[0]).1, reqs[1..])
  }

  /** Every privileged row of `after` was already a row of `before` holding at least those flags. */
  ghost predicate PrivilegesWithin(before: Db, after: Db) {
    forall k :: k in after.rows && (after.rows[k].staff || after.rows[k].admin) ==>
      k in before.rows && GrantsNothing(before.rows[k], after.rows[k])
  }

  ghost predicate NoStaff(db: Db) {
    forall k :: k in db.rows ==> !db.rows[k].staff
  }

  /** Every admin row of `after` was already an admin row of `before`. */
  ghost predicate AdminsWithin(before: Db, after: Db) {
    forall k :: k in after.rows && after.rows[k].admin ==> k in before.rows && before.rows[k].admin
  }

  lemma PrivilegesWithinTransitive(a: Db, b: Db, c: Db)
    requires PrivilegesWithin(a, b) && PrivilegesWithin(b, c)
    ensures PrivilegesWithin(a, c)
  {
  }

  /** One request of the corrected build grants no privilege flag to any row. */
  lemma ServeCorrectedGrantsNothing(db: Db, req: Request)
    requires Valid(db)
    ensures PrivilegesWithin(db, Serve(Corrected, db, req).1)
  {
  }

  /** However many requests the corrected build serves, no row gains Staff or Admin. */
  lemma {:induction false} RunCorrectedGrantsNothing(db: Db, reqs: seq<Request>)
    requires Valid(db)
    ensures PrivilegesWithin(db, Run(Corrected, db, reqs))
    decreases |reqs|
  {
    if reqs != [] {
      var next := Serve(Corrected, db, reqs[0]).1;
      ServeCorrectedGrantsNothing(db, reqs[0]);
      RunCorrectedGrantsNothing(next, reqs[1..]);
      PrivilegesWithinTransitive(db, next, Run(Corrected, next, reqs[1..]));
    }
  }

  /** One request as written never makes a row admin, nor the first staff row. */
  lemma ServeAsWrittenKeepsFlags(db: Db, req: Request)
    requires Valid(db)
    ensures AdminsWithin(db, Serve(AsWritten, db, req).1)
    ensures NoStaff(db) ==> NoStaff(Serve(AsWritten, db, req).1)
  {
  }

  /**
   * As written, no request sequence creates an admin, and a table without staff never
   * gets one: staff can only spread from a row that already has the flag.
   */
  lemma {:induction false} RunAsWrittenKeepsFlags(db: Db, reqs: seq<Request>)
    requires Valid(db)
    ensures AdminsWithin(db, Run(AsWritten, db, reqs))
    ensures NoStaff(db) ==> NoStaff(Run(AsWritten, db, reqs))
    decreases |reqs|
  {
    if reqs != [] {
      var next := Serve(AsWritten, db, reqs[0]).1;
      ServeAsWrittenKeepsFlags(db, reqs[0]);
      RunAsWrittenKeepsFlags(next, reqs[1..]);
    }
  }
}
