/**
 * Two discrepancies in PUT /users/:id as written, each shown on a concrete table, beside
 * the corrected handler (Handlers.UpdateUserCorrected) that closes them.
 */
module Findings {
  import opened Wrappers
  import opened UserModel
  import opened Persistence
  import opened Policy
  import Handlers
  import Traces

  const Amy := User(1, "a@x.com", "$2a$12$amyhash", "", "", "amy", true, false, false, false)
  const Bob := User(2, "b@x.com", "$2a$12$bobhash", "", "", "bob", false, false, false, true)
  const Table := Db(map[1 := Amy, 2 := Bob], 3)

  /** Amy, not staff, names staff member Bob in the path and her own id in the body. */
  const SelfGrant := UserJson(1, "a@x.com", "", "", "amy", true, false, true)

  /**
   * As written, the escalation guard reads Bob's row (the path id) while the save goes to
   * Amy's row (the body id), so Amy makes herself staff.
   */
  lemma UpdateAsWrittenSelfGrantsStaff()
    ensures Valid(Table)
    ensures !Table.rows[1].staff
    ensures Handlers.UpdateUser(Table, "amy", Some(2), Some(SelfGrant)).0.outcome == Ok
    ensures Handlers.UpdateUser(Table, "amy", Some(2), Some(SelfGrant)).1.rows[1].staff
    ensures !Traces.PrivilegesWithin(Table, Traces.Run(Traces.AsWritten, Table, [Traces.Update("amy", Some(2), Some(SelfGrant))]))
  {
  }

  /** The corrected handler refuses the same request. */
  lemma UpdateCorrectedRefusesSelfGrant()
    ensures Handlers.UpdateUserCorrected(Table, "amy", Some(2), Some(SelfGrant)).0.outcome == Forbidden
    ensures Handlers.UpdateUserCorrected(Table, "amy", Some(2), Some(SelfGrant)).1 == Table
  {
  }

  /**
   * As written, every successful update stores the bound body, whose password is "" and
   * whose admin flag is false: the stored hash and admin flag are overwritten.
   */
  lemma UpdateAsWrittenErasesSecrets(db: Db, claim: string, pathId: Option<int>, body: Option<UserJson>)
    requires Valid(db)
    requires Handlers.UpdateUser(db, claim, pathId, body).0.outcome == Ok
    ensures body.Some? && body.value.id in db.rows
    ensures Handlers.UpdateUser(db, claim, pathId, body).1.rows[body.value.id].password == ""
    ensures !Handlers.UpdateUser(db, claim, pathId, body).1.rows[body.value.id].admin
  {
  }

  /** Amy renaming herself loses her password hash as written, and keeps it when corrected. */
  lemma UpdateOwnNameErasesHash()
    ensures var body := Some(ToJson(Amy.(firstname := "Amy")));
      && Handlers.UpdateUser(Table, "amy", Some(1), body).0.outcome == Ok
      && Handlers.UpdateUser(Table, "amy", Some(1), body).1.rows[1].password == ""
      && Handlers.UpdateUserCorrected(Table, "amy", Some(1), body).0.outcome == Ok
      && Handlers.UpdateUserCorrected(Table, "amy", Some(1), body).1.rows[1] == Amy.(firstname := "Amy")
  {
  }
}
