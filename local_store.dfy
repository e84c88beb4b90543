/**
 * The file `local-db.json` that `db.js`, `sql.js` and the mock auth adapter all read and
 * rewrite wholesale. Each operation of theirs is one atomic transition of this object.
 */
module LocalStore {
  import opened Records

  /** The parsed content of the file, as `readDb()` returns it. */
  datatype Snapshot = Snapshot(
    users: seq<User>,
    groups: seq<Group>,
    group_members: seq<Member>,
    todos: seq<Todo>,
    notes: seq<Note>,
    messages: seq<Message>,
    accounts: seq<Account>,
    sessions: seq<Session>,
    verificationTokens: seq<VerificationToken>)

  class LocalDb {
    var users: seq<User>
    var groups: seq<Group>
    var group_members: seq<Member>
    var todos: seq<Todo>
    var notes: seq<Note>
    var messages: seq<Message>
    var accounts: seq<Account>
    var sessions: seq<Session>
    var verificationTokens: seq<VerificationToken>

    /** `readDb()`: the current content of every collection. */
    function Read(): (s: Snapshot)
      reads this
    {
      Snapshot(users, groups, group_members, todos, notes, messages,
               accounts, sessions, verificationTokens)
    }
  }
}
