/**
 * What the route handlers share: the JSON values a request body may carry, the responses
 * they send, the signed-in check and the group-membership check.
 */
module Http {
  import opened Wrappers
  import opened Seqs
  import opened Records
  import opened LocalStore
  import AccessLayer

  /** A JSON value from a request body; arrays are arrays of strings (ids). */
  datatype Json = Undefined | Null | Bool(b: bool) | Num(n: int) | Str(s: string) | Arr(items: seq<string>) | Obj

  /** JavaScript truthiness. */
  predicate JsonTruthy(j: Json) {
    match j
    case Undefined => false
    case Null => false
    case Bool(b) => b
    case Num(n) => n != 0
    case Str(s) => s != ""
    case Arr(_) => true
    case Obj => true
  }

  /** The payload of a response: an error message or the requested data. */
  datatype Body =
    | Error(error: string)
    | GroupList(groups: seq<Group>)
    | GroupCreated(group: Group)
    | TodoList(todos: seq<AccessLayer.TodoRow>)
    | TodoCreated(todo: Todo)
    | NoteList(notes: seq<Note>)
    | NoteCreated(note: Note)
    | UserList(users: seq<User>)

  datatype Response = Response(status: int, body: Body)

  const Unauthorized := Response(401, Error("Unauthorized"))
  const NotAMember := Response(403, Error("Not a member of this group"))

  /**
   * `!session || !session.user?.id` fails: the session's user id, as the auth library
   * supplies it, is present and not empty.
   */
  predicate SignedIn(userId: Option<string>) {
    Truthy(userId)
  }

  /** A group id that names a group (not `"personal"` and not empty), which the routes check membership of. */
  predicate NamesGroup(groupId: Option<string>) {
    Truthy(groupId) && groupId != Some("personal")
  }

  /** `memberGroups.find(g => g.id === groupId)` over the user's groups is truthy. */
  predicate InMemberGroups(s: Snapshot, userId: string, groupId: string) {
    Find(AccessLayer.FindMemberGroups(s, userId), (g: Group) => g.id == groupId).Some?
  }

  /** The routes' check asks for more than a membership row: the group itself must exist too. */
  lemma InMemberGroupsIsMembership(s: Snapshot, userId: string, groupId: string)
    ensures InMemberGroups(s, userId, groupId)
        <==> AccessLayer.IsMember(s, groupId, userId) && exists g :: g in s.groups && g.id == groupId
  {
    var mine := AccessLayer.FindMemberGroups(s, userId);
    if AccessLayer.IsMember(s, groupId, userId) && exists g :: g in s.groups && g.id == groupId {
      var g :| g in s.groups && g.id == groupId;
      assert g in mine;
    }
  }
}
