/**
 * The records kept in the local JSON store: the application's users, groups, memberships,
 * todos, notes and messages, and the auth library's accounts, sessions and verification tokens.
 */
module Records {
  import opened Wrappers

  /** A point in time: the milliseconds since the epoch that `new Date(iso)` gives for a stored ISO-8601 string. */
  type Time = int

  /** What the id generator and the clock supply for one new record. */
  datatype Stamp = Stamp(id: string, at: Time)

  /** JavaScript truthiness of a nullable string column: present and not the empty string. */
  predicate Truthy(v: Option<string>) {
    v.Some? && v.value != ""
  }

  /** One key of a merge patch (`{...old, ...patch}`): absent from the patch, or present with a value. */
  datatype Field<T> = Keep | Set(value: T) {
    function Over(base: T): T {
      if Set? then value else base
    }
  }

  /** An auth-library user; `db.users.search` reads the same records. */
  datatype User = User(id: string, name: Option<string>, email: Option<string>,
                       emailVerified: Option<Time>, image: Option<string>)

  datatype Group = Group(id: string, name: string, created_by: string, created_at: Time)

  /** A membership row. Rows written by `db.js` carry `joined_at`; rows written by the mock SQL INSERT carry `created_at`. */
  datatype Member = Member(id: string, group_id: string, user_id: string,
                           joined_at: Option<Time>, created_at: Option<Time>)

  /** A todo; a falsy `group_id` makes it personal. */
  datatype Todo = Todo(id: string, created_by: string, title: string, group_id: Option<string>,
                       due_date: Option<string>, assigned_to: seq<string>, completed: bool,
                       created_at: Time)

  datatype Note = Note(id: string, created_by: string, content: string, group_id: Option<string>,
                       created_at: Time)

  datatype Message = Message(id: string, group_id: string, user_id: string, content: string,
                             created_at: Time)

  /** An auth-library account link; `accountType` is the library's `type` field. */
  datatype Account = Account(userId: string, accountType: string, provider: string,
                             providerAccountId: string)

  datatype Session = Session(sessionToken: string, userId: string, expires: Time)

  datatype VerificationToken = VerificationToken(identifier: string, token: string, expires: Time)
}
