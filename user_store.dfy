/**
 * The handlers as they run against the database: a Store object holding the users table,
 * one method per handler, each a chain of early returns followed by at most one write.
 * Every method is proved to agree with the handler function of the same name.
 */
module UserStore {
  import opened Wrappers
  import opened UserModel
  import opened Persistence
  import opened Identity
  import opened Policy
  import Handlers

  class Store {
    var rows: map<nat, User>
    var nextId: nat

    ghost predicate Valid()
      reads this
    {
      Persistence.Valid(Db(rows, nextId))
    }

    /** The table as a value. */
    function Snapshot(): (db: Db)
      reads this
    {
      Db(rows, nextId)
    }

    /** An empty table whose first key will be 1. */
    constructor ()
      ensures Valid() && rows == map[] && nextId == 1
    {
      rows := map[];
      nextId := 1;
    }

    method CreateUser(body: Option<CreationUser>, hash: string -> Option<string>) returns (reply: Reply)
      requires Valid()
      modifies this
      ensures Valid()
      ensures (reply, Snapshot()) == Handlers.CreateUser(old(Snapshot()), body, hash)
    {
      if !CreationBindable(body) {
        return Reply(BadRequest, None);
      }
      var jsonuser := body.value;
      var user := ZeroUser;
      user := user.(email := jsonuser.email);
      user := user.(username := jsonuser.username);
      user := user.(password := jsonuser.password);
      user := user.(artist := jsonuser.artist);
      user := user.(curator := jsonuser.curator);
      if user.id != 0 {
        return Reply(BadRequest, None);
      }
      if user.staff || user.admin {
        return Reply(Forbidden, None);
      }
      var pw := hash(user.password);
      if pw.None? {
        return Reply(InternalError, None);
      }
      user := user.(password := pw.value);
      // db.Create assigns the next auto-increment key
      user := user.(id := nextId);
      rows := rows[nextId := user];
      nextId := nextId + 1;
      reply := Reply(Ok, Some(ToJson(user)));
    }

    method GetUser(pathId: Option<int>) returns (reply: Reply)
      requires Valid()
      ensures reply == Handlers.GetUser(Snapshot(), pathId)
    {
      if pathId.None? {
        return Reply(BadRequest, None);
      }
      var user := Lookup(Snapshot(), pathId.value);
      if user.None? {
        return Reply(NotFound, None);
      }
      reply := Reply(Ok, Some(ToJson(user.value)));
    }

    method GetMe(claim: string) returns (reply: Reply)
      requires Valid()
      ensures reply == Handlers.GetMe(Snapshot(), claim)
    {
      var me := ZeroUser;
      var found := Principal(Snapshot(), claim);
      if found.Some? {
        me := found.value;
      }
      reply := Reply(Ok, Some(ToJson(me)));
    }

    method DeleteUser(claim: string, pathId: Option<int>) returns (reply: Reply)
      requires Valid()
      modifies this
      ensures Valid()
      ensures (reply, Snapshot()) == Handlers.DeleteUser(old(Snapshot()), claim, pathId)
    {
      if pathId.None? {
        return Reply(BadRequest, None);
      }
      var user := Lookup(Snapshot(), pathId.value);
      if user.None? {
        return Reply(NotFound, None);
      }
      var meId := PrincipalId(Snapshot(), claim);
      if IsForeign(user.value.id, meId) {
        return Reply(Forbidden, None);
      }
      rows := rows - {user.value.id};
      reply := Reply(Ok, None);
    }

    method UpdateUser(claim: string, pathId: Option<int>, body: Option<UserJson>) returns (reply: Reply)
      requires Valid()
      modifies this
      ensures Valid()
      ensures (reply, Snapshot()) == Handlers.UpdateUser(old(Snapshot()), claim, pathId, body)
    {
      if pathId.None? {
        return Reply(BadRequest, None);
      }
      if !UserBindable(body) {
        return Reply(BadRequest, None);
      }
      var user := FromJson(body.value);
      if user.id == 0 {
        return Reply(NotFound, None);
      }
      var other := LookupOrZero(Snapshot(), pathId.value);
      if Escalates(user, other) {
        return Reply(Forbidden, None);
      }
      var meId := PrincipalId(Snapshot(), claim);
      if IsForeign(user.id, meId) {
        return Reply(Forbidden, None);
      }
      rows := rows[user.id := user];
      reply := Reply(Ok, Some(ToJson(user)));
    }
  }
}
