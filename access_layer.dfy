/**
 * `db.js`: the data-access object the route handlers call. Queries are functions of the
 * store's content; every writing operation reads the whole store, changes one collection
 * and writes the whole store back, which is one update of the `LocalDb` object.
 */
module AccessLayer {
  import opened Wrappers
  import opened Seqs
  import opened Text
  import opened Records
  import opened LocalStore

  // ------------------------------------------------------------------------------------------
  // Memberships and groups

  /** Some membership row links the user to the group. */
  predicate IsMember(s: Snapshot, groupId: string, userId: string) {
    exists m :: m in s.group_members && m.group_id == groupId && m.user_id == userId
  }

  /** At most one membership row for each (group, user) pair: what `members.add` keeps. */
  ghost predicate UniqueMemberships(members: seq<Member>) {
    forall i, j :: 0 <= i < j < |members| ==>
      members[i].group_id != members[j].group_id || members[i].user_id != members[j].user_id
  }

  lemma AppendKeepsUnique(members: seq<Member>, m: Member)
    requires UniqueMemberships(members)
    requires forall x :: x in members ==> x.group_id != m.group_id || x.user_id != m.user_id
    ensures UniqueMemberships(members + [m])
  {
    assert forall i :: 0 <= i < |members| ==> members[i] in members;
  }

  /** An id that no group and no membership row uses yet, as a freshly generated id is meant to be. */
  predicate FreshGroupId(s: Snapshot, id: string) {
    (forall g :: g in s.groups ==> g.id != id) && (forall m :: m in s.group_members ==> m.group_id != id)
  }

  /** The ids of the groups the user has a membership row in. */
  function MemberGroupIds(members: seq<Member>, userId: string): (ids: seq<string>)
    ensures forall gid :: gid in ids <==> exists m :: m in members && m.user_id == userId && m.group_id == gid
  {
    var mine := Filter(members, (m: Member) => m.user_id == userId);
    MapMembers(mine, (m: Member) => m.group_id);
    Map(mine, (m: Member) => m.group_id)
  }

  /** `groups.findMemberGroups`: the groups the user belongs to, in store order. */
  function FindMemberGroups(s: Snapshot, userId: string): (r: seq<Group>)
    ensures forall g :: g in r <==> g in s.groups && IsMember(s, g.id, userId)
    ensures IsSubseq(r, s.groups)
  {
    var ids := MemberGroupIds(s.group_members, userId);
    FilterIsSubseq(s.groups, (g: Group) => g.id in ids);
    Filter(s.groups, (g: Group) => g.id in ids)
  }

  /** The membership row `groups.create` adds for the creator. */
  function CreatorMembership(g: Group, member: Stamp): (m: Member)
    ensures m.group_id == g.id && m.user_id == g.created_by && m.joined_at == Some(member.at)
  {
    Member(member.id, g.id, g.created_by, Some(member.at), None)
  }

  /**
   * Creating a group with a fresh id adds that group, at the end, to its creator's groups
   * and to nobody else's.
   */
  lemma {:induction false} MemberGroupsAfterCreate(s: Snapshot, g: Group, m: Member, u: string)
    requires m.group_id == g.id && FreshGroupId(s, g.id)
    ensures FindMemberGroups(s.(groups := s.groups + [g], group_members := s.group_members + [m]), u)
         == FindMemberGroups(s, u) + (if m.user_id == u then [g] else [])
  {
    var ids := MemberGroupIds(s.group_members, u);
    var ids' := MemberGroupIds(s.group_members + [m], u);
    MemberGroupIdsAfterAppend(s.group_members, m, u);
    FilterConcat(s.groups, [g], (x: Group) => x.id in ids');
    FilterExt(s.groups, (x: Group) => x.id in ids', (x: Group) => x.id in ids);
    FilterSingleton(g, (x: Group) => x.id in ids');
  }

  /** A new membership row adds its group to its user's group ids, and nothing else. */
  lemma MemberGroupIdsAfterAppend(members: seq<Member>, m: Member, u: string)
    ensures forall gid :: (gid in MemberGroupIds(members + [m], u)
      <==> gid in MemberGroupIds(members, u) || (m.user_id == u && gid == m.group_id))
  {
    assert forall x :: x in members + [m] <==> x in members || x == m;
  }

  /** `groups.create`: stores the group and makes its creator a member. */
  method CreateGroup(db: LocalDb, name: string, userId: string, group: Stamp, member: Stamp)
    returns (g: Group)
    modifies db
    ensures g == Group(group.id, name, userId, group.at)
    ensures db.Read() == old(db.Read()).(groups := old(db.groups) + [g],
                                         group_members := old(db.group_members) + [CreatorMembership(g, member)])
    ensures FreshGroupId(old(db.Read()), group.id) ==>
      FindMemberGroups(db.Read(), userId) == FindMemberGroups(old(db.Read()), userId) + [g]
    ensures FreshGroupId(old(db.Read()), group.id) ==>
      forall other :: other != userId ==> FindMemberGroups(db.Read(), other) == FindMemberGroups(old(db.Read()), other)
    ensures FreshGroupId(old(db.Read()), group.id) && UniqueMemberships(old(db.group_members)) ==>
      UniqueMemberships(db.group_members)
  {
    ghost var before := db.Read();
    g := Group(group.id, name, userId, group.at);
    var m := CreatorMembership(g, member);
    db.groups := db.groups + [g];
    db.group_members := db.group_members + [m];
    assert db.Read() == before.(groups := before.groups + [g], group_members := before.group_members + [m]);
    if FreshGroupId(before, group.id) {
      CreatorGainsGroup(before, g, m);
      if UniqueMemberships(before.group_members) {
        AppendKeepsUnique(before.group_members, m);
      }
    }
  }

  /** The effect of a create with a fresh id on everybody's group list at once. */
  lemma CreatorGainsGroup(s: Snapshot, g: Group, m: Member)
    requires m.group_id == g.id && m.user_id == g.created_by && FreshGroupId(s, g.id)
    ensures var s' := s.(groups := s.groups + [g], group_members := s.group_members + [m]);
      FindMemberGroups(s', g.created_by) == FindMemberGroups(s, g.created_by) + [g]
      && forall other :: other != g.created_by ==> FindMemberGroups(s', other) == FindMemberGroups(s, other)
  {
    var s' := s.(groups := s.groups + [g], group_members := s.group_members + [m]);
    MemberGroupsAfterCreate(s, g, m, g.created_by);
    forall other | other != g.created_by
      ensures FindMemberGroups(s', other) == FindMemberGroups(s, other)
    {
      MemberGroupsAfterCreate(s, g, m, other);
    }
  }

  /** `members.add`: adds a membership row unless the pair is already a member. */
  method AddMember(db: LocalDb, groupId: string, userId: string, member: Stamp)
    modifies db
    ensures IsMember(old(db.Read()), groupId, userId) ==> db.Read() == old(db.Read())
    ensures !IsMember(old(db.Read()), groupId, userId) ==>
      db.Read() == old(db.Read()).(group_members := old(db.group_members)
                                     + [Member(member.id, groupId, userId, Some(member.at), None)])
    ensures IsMember(db.Read(), groupId, userId)
    ensures UniqueMemberships(old(db.group_members)) ==> UniqueMemberships(db.group_members)
  {
    var existing := Find(db.group_members, (m: Member) => m.group_id == groupId && m.user_id == userId);
    if existing.Some? {
      return;
    }
    var m := Member(member.id, groupId, userId, Some(member.at), None);
    if UniqueMemberships(db.group_members) {
      AppendKeepsUnique(db.group_members, m);
    }
    db.group_members := db.group_members + [m];
    assert m in db.group_members;
  }

  /** A member of a group as `members.list` reports it: the user record and when the user joined. */
  datatype MemberView = MemberView(user: User, joined_at: Option<Time>)

  /** When the user joined the group: the `joined_at` of the first row linking them, if any. */
  function JoinedAt(members: seq<Member>, groupId: string, userId: string): Option<Time> {
    match Find(members, (m: Member) => m.group_id == groupId && m.user_id == userId)
    case Some(m) => m.joined_at
    case None => None
  }

  /** The `joined_at` of the first of the group's rows that names the user. */
  function FirstJoined(records: seq<Member>, userId: string): Option<Time> {
    match Find(records, (m: Member) => m.user_id == userId)
    case Some(m) => m.joined_at
    case None => None
  }

  lemma FirstJoinedIsJoinedAt(members: seq<Member>, groupId: string)
    ensures forall userId :: (FirstJoined(Filter(members, (m: Member) => m.group_id == groupId), userId)
         == JoinedAt(members, groupId, userId))
  {
    forall userId
      ensures FirstJoined(Filter(members, (m: Member) => m.group_id == groupId), userId)
           == JoinedAt(members, groupId, userId)
    {
      FindInFiltered(members, (m: Member) => m.group_id == groupId, (m: Member) => m.user_id == userId,
                     (m: Member) => m.group_id == groupId && m.user_id == userId);
    }
  }

  /** `members.list`: the users of the group, in the order of the users collection. */
  function ListMembers(s: Snapshot, groupId: string): (r: seq<MemberView>)
    ensures |r| <= |s.users|
    ensures forall v :: v in r ==>
      v.user in s.users && IsMember(s, groupId, v.user.id)
      && v.joined_at == JoinedAt(s.group_members, groupId, v.user.id)
    ensures forall u :: u in s.users && IsMember(s, groupId, u.id) ==>
      MemberView(u, JoinedAt(s.group_members, groupId, u.id)) in r
    ensures IsSubseq(Map(r, (v: MemberView) => v.user), s.users)
  {
    var records := Filter(s.group_members, (m: Member) => m.group_id == groupId);
    var userIds := Map(records, (m: Member) => m.user_id);
    var users := Filter(s.users, (u: User) => u.id in userIds);
    MapMembers(records, (m: Member) => m.user_id);
    MapMembers(users, (u: User) => MemberView(u, FirstJoined(records, u.id)));
    FirstJoinedIsJoinedAt(s.group_members, groupId);
    FilterIsSubseq(s.users, (u: User) => u.id in userIds);
    var r := Map(users, (u: User) => MemberView(u, FirstJoined(records, u.id)));
    assert Map(r, (v: MemberView) => v.user) == users;
    r
  }

  // ------------------------------------------------------------------------------------------
  // User search

  /** A user whose (non-empty) email contains the query, ignoring the case of ASCII letters. */
  predicate EmailMatches(u: User, query: string) {
    Truthy(u.email) && Contains(ToLower(u.email.value), ToLower(query))
  }

  /** `users.search`: every matching user, in store order, with no cap on the count. */
  function SearchUsers(s: Snapshot, query: string): (r: seq<User>)
    ensures forall u :: u in r <==> u in s.users && EmailMatches(u, query)
    ensures IsSubseq(r, s.users)
  {
    FilterIsSubseq(s.users, (u: User) => EmailMatches(u, query));
    Filter(s.users, (u: User) => EmailMatches(u, query))
  }

  /** The search does not depend on the case of the query. */
  lemma SearchIgnoresQueryCase(s: Snapshot, q1: string, q2: string)
    requires ToLower(q1) == ToLower(q2)
    ensures SearchUsers(s, q1) == SearchUsers(s, q2)
  {
    FilterExt(s.users, (u: User) => EmailMatches(u, q1), (u: User) => EmailMatches(u, q2));
  }

  /** The empty query matches every user with an email. */
  lemma {:induction false} EmptyQueryMatchesAll(s: Snapshot)
    ensures forall u :: u in SearchUsers(s, "") <==> u in s.users && Truthy(u.email)
  {
    forall u | u in s.users && Truthy(u.email) ensures EmailMatches(u, "") {
      assert StartsWith(ToLower(u.email.value), "");
    }
  }

  // ------------------------------------------------------------------------------------------
  // Todos

  /** A todo as `todos.list` returns it: the dashboard listing adds the group's name. */
  datatype TodoRow = Plain(todo: Todo) | Annotated(todo: Todo, group_name: Option<string>)

  /** A personal todo (falsy `group_id`) of that user. */
  predicate IsPersonalOf(t: Todo, userId: string) {
    !Truthy(t.group_id) && t.created_by == userId
  }

  /** On the user's dashboard: in one of the user's groups, or personal to the user. */
  predicate OnDashboard(s: Snapshot, userId: string, t: Todo) {
    (t.group_id.Some? && IsMember(s, t.group_id.value, userId)) || IsPersonalOf(t, userId)
  }

  /** The name of the first group with the todo's group id, or null when there is none. */
  function GroupName(groups: seq<Group>, groupId: Option<string>): (r: Option<string>)
    ensures r.None? <==> forall g :: g in groups ==> Some(g.id) != groupId
    ensures r.Some? ==> exists g :: g in groups && Some(g.id) == groupId && g.name == r.value
  {
    match Find(groups, (g: Group) => Some(g.id) == groupId)
    case Some(g) => Some(g.name)
    case None => None
  }

  lemma PlainRows(f: seq<Todo>)
    ensures forall row :: row in Map(f, (t: Todo) => Plain(t)) <==> row.Plain? && row.todo in f
  {
    var r := Map(f, (t: Todo) => Plain(t));
    forall row | row in r ensures row.Plain? && row.todo in f {
      var i :| 0 <= i < |r| && r[i] == row;
    }
    forall row: TodoRow | row.Plain? && row.todo in f ensures row in r {
      var i :| 0 <= i < |f| && f[i] == row.todo;
      assert r[i] == row;
    }
  }

  lemma AnnotatedRows(f: seq<Todo>, groups: seq<Group>)
    ensures forall row :: (row in Map(f, (t: Todo) => Annotated(t, GroupName(groups, t.group_id)))
      <==> row.Annotated? && row.todo in f && row.group_name == GroupName(groups, row.todo.group_id))
  {
    var r := Map(f, (t: Todo) => Annotated(t, GroupName(groups, t.group_id)));
    forall row | row in r ensures row.Annotated? && row.todo in f && row.group_name == GroupName(groups, row.todo.group_id) {
      var i :| 0 <= i < |r| && r[i] == row;
    }
    forall row: TodoRow | row.Annotated? && row.todo in f && row.group_name == GroupName(groups, row.todo.group_id)
      ensures row in r
    {
      var i :| 0 <= i < |f| && f[i] == row.todo;
      assert r[i] == row;
    }
  }

  /** The three listings of `todos.list`, chosen by the `groupId` argument. */
  function ListTodos(s: Snapshot, userId: string, groupId: Option<string>): (r: seq<TodoRow>)
    ensures |r| <= |s.todos|
    ensures groupId == Some("personal") ==>
      forall row :: row in r <==> row.Plain? && row.todo in s.todos && IsPersonalOf(row.todo, userId)
    ensures Truthy(groupId) && groupId != Some("personal") ==>
      forall row :: row in r <==> row.Plain? && row.todo in s.todos && row.todo.group_id == groupId
    ensures !Truthy(groupId) ==>
      forall row :: row in r <==>
        row.Annotated? && row.todo in s.todos && OnDashboard(s, userId, row.todo)
        && row.group_name == GroupName(s.groups, row.todo.group_id)
    ensures IsSubseq(Map(r, (row: TodoRow) => row.todo), s.todos)
  {
    if groupId == Some("personal") then
      var f := Filter(s.todos, (t: Todo) => IsPersonalOf(t, userId));
      PlainRows(f);
      FilterIsSubseq(s.todos, (t: Todo) => IsPersonalOf(t, userId));
      var r := Map(f, (t: Todo) => Plain(t));
      assert Map(r, (row: TodoRow) => row.todo) == f;
      r
    else if Truthy(groupId) then
      var f := Filter(s.todos, (t: Todo) => t.group_id == groupId);
      PlainRows(f);
      FilterIsSubseq(s.todos, (t: Todo) => t.group_id == groupId);
      var r := Map(f, (t: Todo) => Plain(t));
      assert Map(r, (row: TodoRow) => row.todo) == f;
      r
    else
      var ids := MemberGroupIds(s.group_members, userId);
      var f := Filter(s.todos, (t: Todo) => (t.group_id.Some? && t.group_id.value in ids) || IsPersonalOf(t, userId));
      AnnotatedRows(f, s.groups);
      FilterIsSubseq(s.todos, (t: Todo) => (t.group_id.Some? && t.group_id.value in ids) || IsPersonalOf(t, userId));
      var r := Map(f, (t: Todo) => Annotated(t, GroupName(s.groups, t.group_id)));
      assert Map(r, (row: TodoRow) => row.todo) == f;
      r
  }

  /** Appending a todo leaves every listing as it was, followed by what that todo alone would list. */
  lemma {:induction false} ListTodosAfterAppend(s: Snapshot, t: Todo, userId: string, groupId: Option<string>)
    ensures ListTodos(s.(todos := s.todos + [t]), userId, groupId)
         == ListTodos(s, userId, groupId) + ListTodos(s.(todos := [t]), userId, groupId)
  {
    if groupId == Some("personal") {
      FilterConcat(s.todos, [t], (x: Todo) => IsPersonalOf(x, userId));
      MapConcat(Filter(s.todos, (x: Todo) => IsPersonalOf(x, userId)),
                Filter([t], (x: Todo) => IsPersonalOf(x, userId)), (x: Todo) => Plain(x));
    } else if Truthy(groupId) {
      FilterConcat(s.todos, [t], (x: Todo) => x.group_id == groupId);
      MapConcat(Filter(s.todos, (x: Todo) => x.group_id == groupId),
                Filter([t], (x: Todo) => x.group_id == groupId), (x: Todo) => Plain(x));
    } else {
      var ids := MemberGroupIds(s.group_members, userId);
      var p := (x: Todo) => (x.group_id.Some? && x.group_id.value in ids) || IsPersonalOf(x, userId);
      FilterConcat(s.todos, [t], p);
      MapConcat(Filter(s.todos, p), Filter([t], p), (x: Todo) => Annotated(x, GroupName(s.groups, x.group_id)));
    }
  }

  /** Who may see a todo: a group todo its group's members, a personal todo its creator. */
  predicate CanSee(s: Snapshot, userId: string, t: Todo) {
    if Truthy(t.group_id) then IsMember(s, t.group_id.value, userId) else t.created_by == userId
  }

  /** The position of the first todo with that id, or -1. */
  function TodoIndex(todos: seq<Todo>, todoId: string): (i: int)
    ensures -1 <= i < |todos|
    ensures 0 <= i ==> todos[i].id == todoId && forall j :: 0 <= j < i ==> todos[j].id != todoId
    ensures i == -1 ==> forall t :: t in todos ==> t.id != todoId
  {
    FindIndex(todos, (t: Todo) => t.id == todoId)
  }

  /** `todos.checkAccess`: the first todo with that id exists and the user may see it. */
  function CheckAccess(s: Snapshot, userId: string, todoId: string): (ok: bool)
    ensures TodoIndex(s.todos, todoId) == -1 ==> !ok
    ensures 0 <= TodoIndex(s.todos, todoId) ==> (ok <==> CanSee(s, userId, s.todos[TodoIndex(s.todos, todoId)]))
  {
    match Find(s.todos, (t: Todo) => t.id == todoId)
    case None => false
    case Some(t) =>
      if !Truthy(t.group_id) then t.created_by == userId
      else Find(s.group_members, (m: Member) => m.group_id == t.group_id.value && m.user_id == userId).Some?
  }

  /** No two stored todos share an id, as generated ids are meant to. */
  ghost predicate UniqueTodoIds(todos: seq<Todo>) {
    forall i, j :: 0 <= i < j < |todos| ==> todos[i].id != todos[j].id
  }

  /** With unique ids, the first todo with a stored todo's id is that todo, so the access check reads it. */
  lemma UniqueIdFindsTodo(s: Snapshot, userId: string, t: Todo)
    requires UniqueTodoIds(s.todos) && t in s.todos
    ensures 0 <= TodoIndex(s.todos, t.id) && s.todos[TodoIndex(s.todos, t.id)] == t
    ensures CheckAccess(s, userId, t.id) <==> CanSee(s, userId, t)
  {
    var k :| 0 <= k < |s.todos| && s.todos[k] == t;
    var i := TodoIndex(s.todos, t.id);
    assert 0 <= i <= k;
  }

  /** Access to a group todo follows the membership rows: it appears and disappears with them. */
  lemma AccessFollowsMembership(s: Snapshot, members: seq<Member>, userId: string, todoId: string)
    requires 0 <= TodoIndex(s.todos, todoId) && Truthy(s.todos[TodoIndex(s.todos, todoId)].group_id)
    ensures var g := s.todos[TodoIndex(s.todos, todoId)].group_id.value;
      (CheckAccess(s.(group_members := members), userId, todoId) <==>
       exists m :: m in members && m.group_id == g && m.user_id == userId)
  {
  }

  /** Nobody but its creator has access to a personal todo. */
  lemma PersonalTodoIsPrivate(s: Snapshot, userId: string, todoId: string)
    requires 0 <= TodoIndex(s.todos, todoId)
    requires !Truthy(s.todos[TodoIndex(s.todos, todoId)].group_id)
    requires s.todos[TodoIndex(s.todos, todoId)].created_by != userId
    ensures !CheckAccess(s, userId, todoId)
  {
  }

  /** `todos.create`: the todo is personal exactly when the group id is `"personal"`. */
  function NewTodo(userId: string, title: string, groupId: Option<string>, dueDate: Option<string>,
                   assignedTo: seq<string>, stamp: Stamp): (t: Todo)
    ensures t.id == stamp.id && t.created_by == userId && t.title == title && t.created_at == stamp.at
    ensures t.due_date == dueDate && t.assigned_to == assignedTo && !t.completed
    ensures t.group_id.None? <==> groupId.None? || groupId == Some("personal")
    ensures groupId != Some("personal") ==> t.group_id == groupId
  {
    Todo(stamp.id, userId, title, if groupId == Some("personal") then None else groupId,
         dueDate, assignedTo, false, stamp.at)
  }

  /** A new todo is on its creator's dashboard when it is personal or its creator belongs to its group ... */
  lemma CreatedTodoIsListed(s: Snapshot, t: Todo, userId: string)
    requires t.created_by == userId
    requires Truthy(t.group_id) ==> IsMember(s, t.group_id.value, userId)
    ensures Annotated(t, GroupName(s.groups, t.group_id)) in ListTodos(s.(todos := s.todos + [t]), userId, None)
  {
    assert t in s.todos + [t];
  }

  /** ... and its creator may open it, provided its id is new. */
  lemma CreatedTodoIsAccessible(s: Snapshot, t: Todo, userId: string)
    requires t.created_by == userId
    requires Truthy(t.group_id) ==> IsMember(s, t.group_id.value, userId)
    requires TodoIndex(s.todos, t.id) == -1
    ensures CheckAccess(s.(todos := s.todos + [t]), userId, t.id)
  {
    var todos := s.todos + [t];
    assert TodoIndex(todos, t.id) == |s.todos| by {
      assert todos[|s.todos|] == t;
      assert forall j :: 0 <= j < |s.todos| ==> todos[j] == s.todos[j];
    }
  }

  /** `todos.create`: appends the new todo. */
  method CreateTodo(db: LocalDb, userId: string, title: string, groupId: Option<string>,
                    dueDate: Option<string>, assignedTo: seq<string>, stamp: Stamp)
    returns (t: Todo)
    modifies db
    ensures t == NewTodo(userId, title, groupId, dueDate, assignedTo, stamp)
    ensures db.Read() == old(db.Read()).(todos := old(db.todos) + [t])
  {
    t := NewTodo(userId, title, groupId, dueDate, assignedTo, stamp);
    db.todos := db.todos + [t];
  }

  /** The keys an update may carry (those `PATCH /api/todos/[id]` sends); absent keys keep their value. */
  datatype TodoPatch = TodoPatch(completed: Field<bool>, title: Field<string>,
                                 due_date: Field<Option<string>>, assigned_to: Field<seq<string>>)

  /** `{...task, ...data}`. */
  function ApplyPatch(t: Todo, p: TodoPatch): (r: Todo)
    ensures r.id == t.id && r.created_by == t.created_by && r.group_id == t.group_id
    ensures r.created_at == t.created_at
    ensures r.completed == (if p.completed.Set? then p.completed.value else t.completed)
    ensures r.title == (if p.title.Set? then p.title.value else t.title)
    ensures r.due_date == (if p.due_date.Set? then p.due_date.value else t.due_date)
    ensures r.assigned_to == (if p.assigned_to.Set? then p.assigned_to.value else t.assigned_to)
  {
    t.(completed := p.completed.Over(t.completed), title := p.title.Over(t.title),
       due_date := p.due_date.Over(t.due_date), assigned_to := p.assigned_to.Over(t.assigned_to))
  }

  /** The todos after `todos.update`: the first todo with the id is patched, the others kept. */
  function UpdatedTodos(todos: seq<Todo>, todoId: string, p: TodoPatch): (r: seq<Todo>)
    ensures |r| == |todos|
    ensures TodoIndex(todos, todoId) == -1 ==> r == todos
    ensures forall j :: 0 <= j < |todos| && j != TodoIndex(todos, todoId) ==> r[j] == todos[j]
    ensures 0 <= TodoIndex(todos, todoId) ==> r[TodoIndex(todos, todoId)] == ApplyPatch(todos[TodoIndex(todos, todoId)], p)
  {
    var i := TodoIndex(todos, todoId);
    if i == -1 then todos else todos[i := ApplyPatch(todos[i], p)]
  }

  /** Applying the same update twice is applying it once. */
  lemma UpdateTwiceIsOnce(todos: seq<Todo>, todoId: string, p: TodoPatch)
    ensures UpdatedTodos(UpdatedTodos(todos, todoId, p), todoId, p) == UpdatedTodos(todos, todoId, p)
  {
    var r := UpdatedTodos(todos, todoId, p);
    var i := TodoIndex(todos, todoId);
    if 0 <= i {
      assert TodoIndex(r, todoId) == i by {
        assert r[i].id == todoId;
        assert forall j :: 0 <= j < i ==> r[j] == todos[j];
      }
    }
  }

  /** `todos.update`: the patched todo, or null (and no change) when no todo has the id. */
  method UpdateTodo(db: LocalDb, todoId: string, p: TodoPatch) returns (r: Option<Todo>)
    modifies db
    ensures TodoIndex(old(db.todos), todoId) == -1 ==> r.None? && db.Read() == old(db.Read())
    ensures 0 <= TodoIndex(old(db.todos), todoId) ==>
      r == Some(ApplyPatch(old(db.todos)[TodoIndex(old(db.todos), todoId)], p))
      && db.Read() == old(db.Read()).(todos := UpdatedTodos(old(db.todos), todoId, p))
  {
    var i := FindIndex(db.todos, (t: Todo) => t.id == todoId);
    if i == -1 {
      return None;
    }
    var updated := ApplyPatch(db.todos[i], p);
    db.todos := db.todos[i := updated];
    r := Some(updated);
  }

  /** The todos after `todos.delete`: every todo with the id is gone, the rest keep their order. */
  function WithoutTodo(todos: seq<Todo>, todoId: string): (r: seq<Todo>)
    ensures forall t :: t in r <==> t in todos && t.id != todoId
    ensures IsSubseq(r, todos)
  {
    FilterIsSubseq(todos, (t: Todo) => t.id != todoId);
    Filter(todos, (t: Todo) => t.id != todoId)
  }

  lemma DeleteTodoIdempotent(todos: seq<Todo>, todoId: string)
    ensures WithoutTodo(WithoutTodo(todos, todoId), todoId) == WithoutTodo(todos, todoId)
  {
    FilterIdempotent(todos, (t: Todo) => t.id != todoId);
  }

  /** `todos.delete`: always reports success. */
  method DeleteTodo(db: LocalDb, todoId: string) returns (ok: bool)
    modifies db
    ensures ok
    ensures db.Read() == old(db.Read()).(todos := WithoutTodo(old(db.todos), todoId))
  {
    db.todos := WithoutTodo(db.todos, todoId);
    ok := true;
  }

  // ------------------------------------------------------------------------------------------
  // Notes

  /** `notes.list`: personal notes of the user, a group's notes, or nothing without a group id. */
  function ListNotes(s: Snapshot, userId: string, groupId: Option<string>): (r: seq<Note>)
    ensures groupId == Some("personal") ==>
      forall n :: n in r <==> n in s.notes && !Truthy(n.group_id) && n.created_by == userId
    ensures Truthy(groupId) && groupId != Some("personal") ==>
      forall n :: n in r <==> n in s.notes && n.group_id == groupId
    ensures !Truthy(groupId) ==> r == []
    ensures IsSubseq(r, s.notes)
  {
    if groupId == Some("personal") then
      FilterIsSubseq(s.notes, (n: Note) => !Truthy(n.group_id) && n.created_by == userId);
      Filter(s.notes, (n: Note) => !Truthy(n.group_id) && n.created_by == userId)
    else if Truthy(groupId) then
      FilterIsSubseq(s.notes, (n: Note) => n.group_id == groupId);
      Filter(s.notes, (n: Note) => n.group_id == groupId)
    else
      []
  }

  /** `notes.create`: like a todo, a note is personal exactly when the group id is `"personal"`. */
  function NewNote(userId: string, content: string, groupId: Option<string>, stamp: Stamp): (n: Note)
    ensures n.id == stamp.id && n.created_by == userId && n.content == content && n.created_at == stamp.at
    ensures n.group_id.None? <==> groupId.None? || groupId == Some("personal")
    ensures groupId != Some("personal") ==> n.group_id == groupId
  {
    Note(stamp.id, userId, content, if groupId == Some("personal") then None else groupId, stamp.at)
  }

  /** A note created in a scope is listed in that scope. */
  lemma CreatedNoteIsListed(s: Snapshot, userId: string, content: string, groupId: Option<string>, stamp: Stamp)
    requires groupId.Some? && groupId.value != ""
    ensures var n := NewNote(userId, content, groupId, stamp);
      n in ListNotes(s.(notes := s.notes + [n]), userId, groupId)
  {
    var n := NewNote(userId, content, groupId, stamp);
    assert n in s.notes + [n];
  }

  method CreateNote(db: LocalDb, userId: string, content: string, groupId: Option<string>, stamp: Stamp)
    returns (n: Note)
    modifies db
    ensures n == NewNote(userId, content, groupId, stamp)
    ensures db.Read() == old(db.Read()).(notes := old(db.notes) + [n])
  {
    n := NewNote(userId, content, groupId, stamp);
    db.notes := db.notes + [n];
  }

  /** The notes after `notes.delete`. */
  function WithoutNote(notes: seq<Note>, noteId: string): (r: seq<Note>)
    ensures forall n :: n in r <==> n in notes && n.id != noteId
    ensures IsSubseq(r, notes)
  {
    FilterIsSubseq(notes, (n: Note) => n.id != noteId);
    Filter(notes, (n: Note) => n.id != noteId)
  }

  lemma DeleteNoteIdempotent(notes: seq<Note>, noteId: string)
    ensures WithoutNote(WithoutNote(notes, noteId), noteId) == WithoutNote(notes, noteId)
  {
    FilterIdempotent(notes, (n: Note) => n.id != noteId);
  }

  method DeleteNote(db: LocalDb, noteId: string) returns (ok: bool)
    modifies db
    ensures ok
    ensures db.Read() == old(db.Read()).(notes := WithoutNote(old(db.notes), noteId))
  {
    db.notes := WithoutNote(db.notes, noteId);
    ok := true;
  }

  // ------------------------------------------------------------------------------------------
  // Messages

  /** A message as `messages.list` returns it, with the sender's display name. */
  datatype MessageView = MessageView(message: Message, user_name: Option<string>)

  /** `user.name || user.email`. */
  function DisplayName(u: User): (r: Option<string>)
    ensures Truthy(u.name) ==> r == u.name
    ensures !Truthy(u.name) ==> r == u.email
  {
    if Truthy(u.name) then u.name else u.email
  }

  /** The display name of the first user with the id, or `"Unknown"` when there is none. */
  function SenderName(users: seq<User>, userId: string): (r: Option<string>)
    ensures (forall u :: u in users ==> u.id != userId) ==> r == Some("Unknown")
    ensures forall i :: 0 <= i < |users| && users[i].id == userId && (forall j :: 0 <= j < i ==> users[j].id != userId)
              ==> r == DisplayName(users[i])
  {
    match Find(users, (u: User) => u.id == userId)
    case Some(u) => DisplayName(u)
    case None =>
      assert forall i :: 0 <= i < |users| ==> users[i] in users;
      Some("Unknown")
  }

  /** The group's messages in store order, each with its sender's name: what is then sorted. */
  function GroupMessages(s: Snapshot, groupId: string): (r: seq<MessageView>)
    ensures forall v :: v in r <==>
      v.message in s.messages && v.message.group_id == groupId && v.user_name == SenderName(s.users, v.message.user_id)
  {
    var msgs := Filter(s.messages, (m: Message) => m.group_id == groupId);
    MapMembers(msgs, (m: Message) => MessageView(m, SenderName(s.users, m.user_id)));
    Map(msgs, (m: Message) => MessageView(m, SenderName(s.users, m.user_id)))
  }

  ghost predicate SortedByTime(vs: seq<MessageView>) {
    forall i, j :: 0 <= i < j < |vs| ==> vs[i].message.created_at <= vs[j].message.created_at
  }

  /** Inserts v before the first entry that is not earlier than it. */
  function InsertByTime(v: MessageView, vs: seq<MessageView>): (r: seq<MessageView>)
    ensures multiset(r) == multiset(vs) + multiset{v}
  {
    if vs == [] || v.message.created_at <= vs[0].message.created_at then [v] + vs
    else
      assert vs == [vs[0]] + vs[1..];
      [vs[0]] + InsertByTime(v, vs[1..])
  }

  lemma {:induction false} InsertByTimeKeepsSorted(v: MessageView, vs: seq<MessageView>)
    requires SortedByTime(vs)
    ensures SortedByTime(InsertByTime(v, vs))
  {
    if vs != [] && vs[0].message.created_at < v.message.created_at {
      InsertByTimeKeepsSorted(v, vs[1..]);
      var rest := InsertByTime(v, vs[1..]);
      var r := [vs[0]] + rest;
      forall k | 0 <= k < |rest| ensures vs[0].message.created_at <= rest[k].message.created_at {
        assert rest[k] in multiset(vs[1..]) + multiset{v};
        if rest[k] != v {
          var t :| 0 <= t < |vs[1..]| && vs[1..][t] == rest[k];
          assert vs[1..][t] == vs[t + 1];
        }
      }
      forall i, j | 0 <= i < j < |r| ensures r[i].message.created_at <= r[j].message.created_at {
        assert r[j] == rest[j - 1];
        if 0 < i {
          assert r[i] == rest[i - 1];
        }
      }
    }
  }

  /** The stable sort of `.sort((a, b) => new Date(a.created_at) - new Date(b.created_at))`. */
  function SortByTime(vs: seq<MessageView>): (r: seq<MessageView>)
    ensures SortedByTime(r)
    ensures multiset(r) == multiset(vs)
  {
    if vs == [] then []
    else
      assert vs == [vs[0]] + vs[1..];
      InsertByTimeKeepsSorted(vs[0], SortByTime(vs[1..]));
      InsertByTime(vs[0], SortByTime(vs[1..]))
  }

  /** The entries stamped with one instant, in order. */
  function AtTime(vs: seq<MessageView>, at: Time): (r: seq<MessageView>)
    ensures forall v :: v in r <==> v in vs && v.message.created_at == at
  {
    Filter(vs, (v: MessageView) => v.message.created_at == at)
  }

  lemma {:induction false} InsertByTimeIsStable(v: MessageView, vs: seq<MessageView>, at: Time)
    ensures AtTime(InsertByTime(v, vs), at) == AtTime([v], at) + AtTime(vs, at)
  {
    if vs == [] || v.message.created_at <= vs[0].message.created_at {
      FilterConcat([v], vs, (x: MessageView) => x.message.created_at == at);
    } else {
      InsertByTimeIsStable(v, vs[1..], at);
      FilterConcat([vs[0]], InsertByTime(v, vs[1..]), (x: MessageView) => x.message.created_at == at);
      FilterConcat([vs[0]], vs[1..], (x: MessageView) => x.message.created_at == at);
      assert [vs[0]] + vs[1..] == vs;
    }
  }

  /** Messages sent at the same instant keep their store order. */
  lemma {:induction false} SortByTimeIsStable(vs: seq<MessageView>, at: Time)
    ensures AtTime(SortByTime(vs), at) == AtTime(vs, at)
  {
    if vs != [] {
      SortByTimeIsStable(vs[1..], at);
      InsertByTimeIsStable(vs[0], SortByTime(vs[1..]), at);
      FilterConcat([vs[0]], vs[1..], (x: MessageView) => x.message.created_at == at);
      assert [vs[0]] + vs[1..] == vs;
    }
  }

  /** `messages.list`: the group's messages, oldest first, ties in store order. */
  function ListMessages(s: Snapshot, groupId: string): (r: seq<MessageView>)
    ensures SortedByTime(r)
    ensures multiset(r) == multiset(GroupMessages(s, groupId))
    ensures forall at :: AtTime(r, at) == AtTime(GroupMessages(s, groupId), at)
  {
    var vs := GroupMessages(s, groupId);
    forall at ensures AtTime(SortByTime(vs), at) == AtTime(vs, at) {
      SortByTimeIsStable(vs, at);
    }
    SortByTime(vs)
  }

  /** `messages.create`: appends the message. */
  method CreateMessage(db: LocalDb, userId: string, groupId: string, content: string, stamp: Stamp)
    returns (m: Message)
    modifies db
    ensures m == Message(stamp.id, groupId, userId, content, stamp.at)
    ensures db.Read() == old(db.Read()).(messages := old(db.messages) + [m])
  {
    m := Message(stamp.id, groupId, userId, content, stamp.at);
    db.messages := db.messages + [m];
  }

  /** A sent message appears in its group's listing, with its sender's name. */
  lemma SentMessageIsListed(s: Snapshot, m: Message)
    ensures MessageView(m, SenderName(s.users, m.user_id)) in ListMessages(s.(messages := s.messages + [m]), m.group_id)
  {
    var s' := s.(messages := s.messages + [m]);
    var v := MessageView(m, SenderName(s.users, m.user_id));
    assert m in s'.messages;
    assert v in GroupMessages(s', m.group_id);
    assert v in multiset(GroupMessages(s', m.group_id));
  }
}
