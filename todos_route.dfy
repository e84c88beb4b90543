/** `GET` and `POST /api/todos`: listing the todos of a scope, and creating a todo. */
module TodosRoute {
  import opened Wrappers
  import opened Records
  import opened LocalStore
  import opened Http
  import AccessLayer

  /** The membership check both handlers make before touching a group's todos. */
  predicate Refused(s: Snapshot, userId: string, groupId: Option<string>) {
    NamesGroup(groupId) && !InMemberGroups(s, userId, groupId.value)
  }

  /** `GET ?groupId=…`: the todos of that scope, once the user is known to belong to the group it names. */
  function Get(s: Snapshot, userId: Option<string>, groupId: Option<string>): (r: Response)
    ensures !SignedIn(userId) ==> r == Unauthorized
    ensures SignedIn(userId) ==> (r == NotAMember <==> Refused(s, userId.value, groupId))
    ensures r.status == 200 <==> SignedIn(userId) && !Refused(s, userId.value, groupId)
    ensures r.status == 200 ==> r.body == TodoList(AccessLayer.ListTodos(s, userId.value, groupId))
  {
    if !SignedIn(userId) then Unauthorized
    else if Refused(s, userId.value, groupId) then NotAMember
    else Response(200, TodoList(AccessLayer.ListTodos(s, userId.value, groupId)))
  }

  /**
   * Whatever scope is asked for, a successful `GET` only returns todos that `todos.checkAccess`
   * lets the user open, except a todo whose group id is the empty string when some membership
   * row also has the empty group id: the dashboard matches those ids, the access check does not.
   */
  lemma {:induction false} ListedTodosAreVisible(s: Snapshot, userId: Option<string>, groupId: Option<string>)
    requires Get(s, userId, groupId).status == 200
    ensures forall row :: row in Get(s, userId, groupId).body.todos ==>
      row.todo in s.todos
      && (AccessLayer.CanSee(s, userId.value, row.todo)
          || (row.todo.group_id == Some("") && AccessLayer.IsMember(s, "", userId.value)))
  {
    var u := userId.value;
    if NamesGroup(groupId) {
      InMemberGroupsIsMembership(s, u, groupId.value);
    }
  }

  /**
   * With unique todo ids, every todo a successful `GET` returns passes `todos.checkAccess`,
   * outside the empty-group-id corner. Without unique ids the access check looks at the
   * first todo with the id, which may be another one.
   */
  lemma ListedTodosPassAccessCheck(s: Snapshot, userId: Option<string>, groupId: Option<string>)
    requires Get(s, userId, groupId).status == 200
    requires AccessLayer.UniqueTodoIds(s.todos)
    ensures forall row :: row in Get(s, userId, groupId).body.todos ==>
      AccessLayer.CheckAccess(s, userId.value, row.todo.id)
      || (row.todo.group_id == Some("") && AccessLayer.IsMember(s, "", userId.value))
  {
    ListedTodosAreVisible(s, userId, groupId);
    forall row | row in Get(s, userId, groupId).body.todos
      ensures AccessLayer.CheckAccess(s, userId.value, row.todo.id)
        || (row.todo.group_id == Some("") && AccessLayer.IsMember(s, "", userId.value))
    {
      AccessLayer.UniqueIdFindsTodo(s, userId.value, row.todo);
    }
  }

  /** The dashboard (no group id) shows every todo the user may open. */
  lemma DashboardShowsEveryVisibleTodo(s: Snapshot, userId: Option<string>, t: Todo)
    requires SignedIn(userId) && t in s.todos && AccessLayer.CanSee(s, userId.value, t)
    ensures AccessLayer.Annotated(t, AccessLayer.GroupName(s.groups, t.group_id))
      in Get(s, userId, None).body.todos
  {
  }

  /** `POST`: the title is required, the group (if one is named) must be the user's, and the todo is stored. */
  method Post(db: LocalDb, userId: Option<string>, groupId: Option<string>, title: Option<string>,
              dueDate: Option<string>, assignedTo: Json, stamp: Stamp)
    returns (r: Response)
    modifies db
    ensures !SignedIn(userId) ==> r == Unauthorized
    ensures SignedIn(userId) && !Truthy(title) ==> r == Response(400, Error("Title is required"))
    ensures SignedIn(userId) && Truthy(title) ==> (r == NotAMember <==> Refused(old(db.Read()), userId.value, groupId))
    ensures r.status != 201 ==> db.Read() == old(db.Read())
    ensures r.status == 201 <==> SignedIn(userId) && Truthy(title) && !Refused(old(db.Read()), userId.value, groupId)
    ensures r.status == 201 ==>
      var assignees := if assignedTo.Arr? then assignedTo.items else [userId.value];
      r.body == TodoCreated(AccessLayer.NewTodo(userId.value, title.value, groupId, dueDate, assignees, stamp))
      && db.Read() == old(db.Read()).(todos := old(db.todos) + [r.body.todo])
    ensures r.status == 201 ==>
      AccessLayer.Annotated(r.body.todo, AccessLayer.GroupName(db.groups, r.body.todo.group_id))
        in AccessLayer.ListTodos(db.Read(), userId.value, None)
    ensures r.status == 201 && AccessLayer.TodoIndex(old(db.todos), stamp.id) == -1 ==>
      AccessLayer.CheckAccess(db.Read(), userId.value, stamp.id)
  {
    if !SignedIn(userId) {
      return Unauthorized;
    }
    if !Truthy(title) {
      return Response(400, Error("Title is required"));
    }
    var s := db.Read();
    if Refused(s, userId.value, groupId) {
      return NotAMember;
    }
    if NamesGroup(groupId) {
      InMemberGroupsIsMembership(s, userId.value, groupId.value);
    }
    var assignees := if assignedTo.Arr? then assignedTo.items else [userId.value];
    var t := AccessLayer.CreateTodo(db, userId.value, title.value, groupId, dueDate, assignees, stamp);
    AccessLayer.CreatedTodoIsListed(s, t, userId.value);
    if AccessLayer.TodoIndex(s.todos, stamp.id) == -1 {
      AccessLayer.CreatedTodoIsAccessible(s, t, userId.value);
    }
    r := Response(201, TodoCreated(t));
  }
}
