/** The user entity and its password-free public projection. */
module Entities {
  import opened Js

  /**
   * A user as the data layer hands it over. The fields are JavaScript values:
   * the entity is built from whatever a database row or request object holds.
   */
  datatype User = User(id: Value, name: Value, email: Value, password: Value)

  /** The `{id, name, email}` record the use cases return: it has no password field. */
  datatype PublicUser = PublicUser(id: Value, name: Value, email: Value)

  function Project(u: User): PublicUser {
    PublicUser(u.id, u.name, u.email)
  }

  /** The projection forgets the password and nothing else. */
  lemma ProjectForgetsOnlyPassword(u: User, v: User)
    ensures Project(u) == Project(v) <==> u.(password := v.password) == v
  {
  }
}
