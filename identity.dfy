/**
 * Resolving the acting principal: `db.Where("username = ?", claim).First(&me)`, which
 * returns the matching row with the smallest primary key, or leaves `me` zero-valued.
 */
module Identity {
  import opened Wrappers
  import opened UserModel
  import opened Persistence

  /** The smallest key below `bound` whose row has username `name`. */
  function FirstByUsername(rows: map<nat, User>, name: string, bound: nat): (r: Option<nat>)
    ensures r.Some? ==> r.value < bound && r.value in rows && rows[r.value].username == name
    ensures r.Some? ==> forall j :: j in rows && j < r.value ==> rows[j].username != name
    ensures r.None? ==> forall j :: j in rows && j < bound ==> rows[j].username != name
    decreases bound
  {
    if bound == 0 then None
    else
      var earlier := FirstByUsername(rows, name, bound - 1);
      if earlier.Some? then earlier
      else if bound - 1 in rows && rows[bound - 1].username == name then Some(bound - 1)
      else None
  }

  /** The stored user whose Username equals the session claim, if there is one. */
  function Principal(db: Db, claim: string): (me: Option<User>)
    requires Valid(db)
    ensures me.Some? ==> me.value.id in db.rows && db.rows[me.value.id] == me.value
    ensures me.Some? ==> me.value.username == claim
    ensures me.Some? ==> forall j :: j in db.rows && j < me.value.id ==> db.rows[j].username != claim
    ensures me.None? <==> forall j :: j in db.rows ==> db.rows[j].username != claim
  {
    match FirstByUsername(db.rows, claim, db.nextId)
    case Some(k) => Some(db.rows[k])
    case None => None
  }

  /** The id handlers compare against: the principal's, or 0 from the zero-valued `me`. */
  function PrincipalId(db: Db, claim: string): (id: nat)
    requires Valid(db)
    ensures id != 0 <==> Principal(db, claim).Some?
    ensures id != 0 ==> id in db.rows && db.rows[id].username == claim
    ensures id != 0 ==> id == Principal(db, claim).value.id
    ensures id != 0 ==> forall j :: j in db.rows && j < id ==> db.rows[j].username != claim
    ensures id !in db.rows ==> id == 0
  {
    match Principal(db, claim)
    case Some(me) => me.id
    case None => 0
  }
}
