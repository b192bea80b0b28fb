/**
 * The users table as a value: rows keyed by their auto-increment primary key, and the
 * next key the database will hand out. Lookups return an explicit found/absent result.
 */
module Persistence {
  import opened Wrappers
  import opened UserModel

  datatype Db = Db(rows: map<nat, User>, nextId: nat)

  /** Keys start at 1, every row sits under its own id, and the next key is unused. */
  ghost predicate Valid(db: Db) {
    1 <= db.nextId &&
    forall k :: k in db.rows ==> 1 <= k < db.nextId && db.rows[k].id == k
  }

  /** `db.First(&user, id)`: the row whose primary key is `id`, if any. */
  function Lookup(db: Db, id: int): (r: Option<User>)
    ensures r.Some? <==> 0 <= id && id as nat in db.rows
    ensures r.Some? ==> r.value == db.rows[id as nat]
  {
    if 0 <= id && id as nat in db.rows then Some(db.rows[id as nat]) else None
  }

  /** A lookup that finds nothing leaves Go's zero-valued User behind. */
  function LookupOrZero(db: Db, id: int): (u: User)
    requires Valid(db)
    ensures u.id == 0 <==> Lookup(db, id).None?
    ensures u.id != 0 ==> u.id in db.rows && u == db.rows[u.id] && u.id == id
    ensures u.id == 0 ==> !u.staff && !u.admin
  {
    match Lookup(db, id)
    case Some(u) => u
    case None => ZeroUser
  }
}
