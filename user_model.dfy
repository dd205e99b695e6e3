/** The User record (backend/src/models/user.model.ts): email, password hash,
    `verified` flag and the two timestamps, with the pre-save hashing hook,
    `comparePassword` and `omitPassword`. bcrypt is abstract: a digest records
    the salt it used and the value it hashed, and comparison recognises a
    digest of exactly the raw value. */
module UserModel {
  import opened Base

  /** What the `password` field holds: a raw value, or a bcrypt digest of a value. */
  datatype Secret = Plain(raw: string) | Hashed(salt: nat, of: Secret)

  /** bcrypt's hash of a raw string under a fresh salt. */
  function HashValue(raw: string, salt: nat): Secret
  {
    Hashed(salt, Plain(raw))
  }

  /** bcrypt's compare: does `stored` digest exactly `raw`? */
  predicate CompareValue(raw: string, stored: Secret)
  {
    stored.Hashed? && stored.of == Plain(raw)
  }

  datatype User = User(email: string, password: Secret, verified: bool, createdAt: int, updatedAt: int)

  /** The `omitPassword()` view: every field of the document but the password. */
  datatype UserView = UserView(id: Id, email: string, verified: bool, createdAt: int, updatedAt: int)

  /** A persisted user: the required email is present and the password field
      holds a digest of a raw value, never the raw value itself. */
  predicate IsStored(u: User)
  {
    u.email != "" && u.password.Hashed? && u.password.of.Plain?
  }

  /** The schema's `required` checks on a new document: a string path is
      missing when it is empty. */
  predicate PassesValidation(email: string, password: string)
  {
    email != "" && password != ""
  }

  /** The pre-save hook: the password is hashed only when it was modified.
      Nothing but the password changes, and a hashed password compares equal
      to exactly the raw value the document held. */
  function PreSave(u: User, passwordModified: bool, salt: nat): (r: User)
    ensures r.(password := u.password) == u
    ensures !passwordModified ==> r == u
    ensures passwordModified ==> forall raw :: CompareValue(raw, r.password) <==> u.password == Plain(raw)
  {
    if !passwordModified then u else u.(password := Hashed(salt, u.password))
  }

  /** `UserModel.create({email, password})` at time `now`: `verified` takes its
      default, both timestamps are set, and saving a new document runs the hook
      with the password marked modified. */
  function CreateUser(email: string, password: string, now: int, salt: nat): (u: User)
    requires PassesValidation(email, password)
    ensures u.email == email && !u.verified
    ensures u.createdAt == now && u.updatedAt == now
    ensures IsStored(u)
    ensures ComparePassword(u, password)
    ensures forall other :: ComparePassword(u, other) ==> other == password
  {
    PreSave(User(email, Plain(password), false, now, now), true, salt)
  }

  /** `comparePassword`: the raw value against the stored hash. A password
      field that was never hashed matches nothing; a stored one matches
      exactly the value it is a digest of. */
  function ComparePassword(u: User, candidate: string): (ok: bool)
    ensures ok ==> u.password.Hashed?
    ensures IsStored(u) ==> (ok <==> u.password.of == Plain(candidate))
  {
    CompareValue(candidate, u.password)
  }

  /** `omitPassword`: a copy of the document without its password. It drops
      the password and nothing else: the password is all that is needed to
      recover the document from its view. */
  function OmitPassword(id: Id, u: User): (v: UserView)
    ensures WithPassword(v, u.password) == (id, u)
  {
    UserView(id, u.email, u.verified, u.createdAt, u.updatedAt)
  }

  /** Puts a password back into a view: the inverse of `OmitPassword`. */
  function WithPassword(v: UserView, password: Secret): (Id, User)
  {
    (v.id, User(v.email, password, v.verified, v.createdAt, v.updatedAt))
  }

  /** Two documents that differ only in their passwords have the same view,
      so the view carries no information about the password. */
  lemma OmitPasswordHidesPassword(id: Id, u: User, password: Secret)
    ensures OmitPassword(id, u.(password := password)) == OmitPassword(id, u)
  {
  }

  /** A digest compares equal to its raw value and to nothing else. */
  lemma CompareHashedValue(raw: string, candidate: string, salt: nat)
    ensures CompareValue(candidate, HashValue(raw, salt)) <==> candidate == raw
  {
  }

  /** Hashing an already hashed password again would lock its owner out. */
  lemma DoubleHashRejectsRaw(raw: string, salt1: nat, salt2: nat)
    ensures !CompareValue(raw, Hashed(salt2, HashValue(raw, salt1)))
  {
  }
}
