/** The `users` table: one row per account. */
module Models {
  import opened Wrappers

  /** A row of the `users` table. `email` is the unique lookup key, `id` the primary key;
      both token columns are nullable strings. */
  datatype User = User(
    id: nat,
    email: string,
    hashedPassword: string,
    resetToken: Option<string>,
    isVerified: bool,
    verificationToken: Option<string>
  )

  /** A row as the ORM inserts it: `is_verified` and `reset_token` take their column
      defaults (false and NULL). */
  function NewUser(id: nat, email: string, hashedPassword: string, verificationToken: Option<string>): (u: User)
    ensures !u.isVerified && u.resetToken == None
    ensures u.id == id && u.email == email && u.hashedPassword == hashedPassword
    ensures u.verificationToken == verificationToken
  {
    User(id, email, hashedPassword, None, false, verificationToken)
  }

  /** The unique index on `email`: the table is a map from email to the row holding it. */
  predicate KeyedByEmail(users: map<string, User>) {
    forall e | e in users :: users[e].email == e
  }

  /** The primary key: every row has its own id, below the next id to be assigned. */
  predicate DistinctIds(users: map<string, User>, nextId: nat) {
    && (forall e | e in users :: users[e].id < nextId)
    && (forall e1, e2 | e1 in users && e2 in users && e1 != e2 :: users[e1].id != users[e2].id)
  }
}
