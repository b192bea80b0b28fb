/**
 * The record shapes of the users package: the stored User row, the body accepted
 * on sign-up (CreationUser), and the JSON view a User is serialised to and bound from.
 */
module UserModel {
  import opened Wrappers

  /** A stored user row. Address, Social and Artworks are not part of this model. */
  datatype User = User(
    id: nat,
    email: string,
    password: string,
    firstname: string,
    lastname: string,
    username: string,
    artist: bool,
    curator: bool,
    admin: bool,
    staff: bool)

  /** The sign-up body: the only fields a new user may choose. */
  datatype CreationUser = CreationUser(
    email: string,
    password: string,
    username: string,
    artist: bool,
    curator: bool)

  /**
   * The JSON members of a User. Password and Admin are tagged `json:"-"`, so they have
   * no member here: they are neither written on output nor read when a body is bound.
   */
  datatype UserJson = UserJson(
    id: nat,
    email: string,
    firstname: string,
    lastname: string,
    username: string,
    isArtist: bool,
    isCurator: bool,
    isStaff: bool)

  /** The outcome a handler reports to the transport layer. */
  datatype Outcome = BadRequest | NotFound | Forbidden | InternalError | Ok

  /** A handler's answer: its outcome and, when it writes one, the user it serialises. */
  datatype Reply = Reply(outcome: Outcome, body: Option<UserJson>)

  /** Go's zero value of User, which a lookup that finds nothing leaves behind. */
  const ZeroUser := User(0, "", "", "", "", "", false, false, false, false)

  /** Serialising a User: the view keeps everything but the password and the admin flag. */
  function ToJson(u: User): (j: UserJson)
    ensures FromJson(j) == u.(password := "", admin := false)
  {
    UserJson(u.id, u.email, u.firstname, u.lastname, u.username, u.artist, u.curator, u.staff)
  }

  /** Binding a JSON body onto a User: the hidden fields keep their zero values. */
  function FromJson(j: UserJson): (u: User)
    ensures u.password == "" && !u.admin
    ensures u.id == j.id && u.staff == j.isStaff
  {
    User(j.id, j.email, "", j.firstname, j.lastname, j.username, j.isArtist, j.isCurator, false, j.isStaff)
  }

  /** gin's `binding:"required"` on Email, Password and Username rejects a missing or empty string. */
  function CreationBindable(body: Option<CreationUser>): (ok: bool)
    ensures ok ==> body.Some?
    ensures body.Some? && (body.value.email == "" || body.value.password == "" || body.value.username == "") ==> !ok
  {
    body.Some? && body.value.email != "" && body.value.password != "" && body.value.username != ""
  }

  /** gin's `binding:"required"` on User's Email and Username. */
  function UserBindable(body: Option<UserJson>): (ok: bool)
    ensures ok ==> body.Some?
    ensures body.Some? && (body.value.email == "" || body.value.username == "") ==> !ok
  {
    body.Some? && body.value.email != "" && body.value.username != ""
  }

  /** Two users serialise alike exactly when they differ at most in password and admin flag. */
  lemma ViewDeterminesPublicFields(u: User, v: User)
    ensures ToJson(u) == ToJson(v) <==> u.(password := v.password, admin := v.admin) == v
  {
  }

  /** The serialised view never depends on the password or the admin flag. */
  lemma ViewHidesSecrets(u: User, password: string, admin: bool)
    ensures ToJson(u.(password := password, admin := admin)) == ToJson(u)
  {
    ViewDeterminesPublicFields(u.(password := password, admin := admin), u);
  }

  /** Binding a serialised body gives back the same JSON. */
  lemma JsonRoundTrip(j: UserJson)
    ensures ToJson(FromJson(j)) == j
  {
  }

  /** Serialising then binding a user loses exactly the password and the admin flag. */
  lemma BindLosesSecrets(u: User)
    ensures FromJson(ToJson(u)) == u.(password := "", admin := false)
    ensures FromJson(ToJson(u)).password == "" && !FromJson(ToJson(u)).admin
  {
  }

  /** No bound body can carry the admin flag or a password. */
  lemma BoundBodyHasNoSecrets(j: UserJson)
    ensures !FromJson(j).admin && FromJson(j).password == ""
  {
  }
}
