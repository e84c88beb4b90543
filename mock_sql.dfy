/**
 * `sql.js`: a tagged-template stand-in for a SQL client that recognises a handful of
 * statement shapes by looking at the first template fragment and runs each against the
 * local JSON store. Only the first fragment (`strings[0]`) and the interpolated values are
 * consulted.
 */
module MockSql {
  import opened Wrappers
  import opened Seqs
  import opened Text
  import opened Records
  import opened LocalStore
  import AccessLayer

  // ------------------------------------------------------------------------------------------
  // Parameters and rows

  /** An interpolated value: null or undefined, a string, or an array of strings. */
  datatype Param = Null | Str(s: string) | List(items: seq<string>)

  /** `values[i]`; a missing value reads as undefined. */
  function At(values: seq<Param>, i: nat): (p: Param)
    ensures i < |values| ==> p == values[i]
    ensures |values| <= i ==> p == Null
  {
    if i < |values| then values[i] else Null
  }

  /** JavaScript truthiness of a parameter. */
  predicate ParamTruthy(p: Param) {
    (p.Str? && p.s != "") || p.List?
  }

  /** `column == param` for a string-or-null column: null equals only null and undefined. */
  predicate LooseEq(column: Option<string>, p: Param) {
    match p
    case Null => column.None?
    case Str(s) => column == Some(s)
    case List(_) => false
  }

  /** A parameter written into a string column. */
  function TextOf(p: Param): string {
    if p.Str? then p.s else ""
  }

  /** A parameter written into a nullable string column. */
  function OptionOf(p: Param): Option<string> {
    if p.Str? then Some(p.s) else None
  }

  /** A parameter written into a list column. */
  function ListOf(p: Param): seq<string> {
    if p.List? then p.items else []
  }

  /** A result row: a stored record, a joined todo, a bare new item, or the delete acknowledgement. */
  datatype Row =
    | UserRow(user: User)
    | GroupRow(group: Group)
    | MemberRow(member: Member)
    | TodoRow(todo: Todo)
    | JoinedTodoRow(todo: Todo, group_name: Option<string>)
    | ItemRow(id: string, created_at: Time)
    | SuccessRow

  // ------------------------------------------------------------------------------------------
  // Recognising the statement

  datatype Command = Select | Insert | CreateGroupCte | Update | Delete | Unrecognised

  /** `ToUpper` leaves no lower-case ASCII letter, so it never starts with a pattern holding one. */
  lemma UpperNeverStartsWith(s: string, p: string, k: nat)
    requires k < |p| && 'a' <= p[k] <= 'z'
    ensures !StartsWith(ToUpper(s), p)
  {
    var u := ToUpper(s);
    if |p| <= |u| {
      assert u[..|p|][k] == u[k];
    }
  }

  /** Two patterns with different first characters cannot both start the same text. */
  lemma StartsDiffer(c: string, p: string, q: string)
    requires StartsWith(c, p) && p != "" && q != "" && p[0] != q[0]
    ensures !StartsWith(c, q)
  {
    assert c[..|p|][0] == c[0];
    if |q| <= |c| {
      assert c[..|q|][0] == c[0];
    }
  }

  /**
   * The statement kind, from the trimmed and upper-cased first fragment: it is compared with
   * `SELECT`, `INSERT` and the three given patterns, in this order.
   */
  function ClassifyCommand(command: string, cte: string, update: string, delete: string): Command {
    if StartsWith(command, "SELECT") then Select
    else if StartsWith(command, "INSERT") || StartsWith(command, cte) then
      if StartsWith(command, cte) then CreateGroupCte else Insert
    else if StartsWith(command, update) then Update
    else if StartsWith(command, delete) then Delete
    else Unrecognised
  }

  /** The statement text as the source compares it. */
  function CommandText(text: string): string {
    ToUpper(Trim(text))
  }

  /**
   * The classification as written: the patterns `WITH new_group AS`, `UPDATE todos` and
   * `DELETE FROM todos` are compared with the upper-cased text.
   */
  function ClassifyAsWritten(text: string): Command {
    ClassifyCommand(CommandText(text), "WITH new_group AS", "UPDATE todos", "DELETE FROM todos")
  }

  /** The lower-case letters in those patterns mean they never match: no statement is ever a delete. */
  lemma AsWrittenOnlySelectsAndInserts(text: string)
    ensures ClassifyAsWritten(text) in {Select, Insert, Unrecognised}
  {
    UpperMatchesNoPattern(Trim(text));
  }

  /** No upper-cased text starts with any of the three patterns as written. */
  lemma UpperMatchesNoPattern(s: string)
    ensures ClassifyCommand(ToUpper(s), "WITH new_group AS", "UPDATE todos", "DELETE FROM todos")
      in {Select, Insert, Unrecognised}
  {
    UpperNeverStartsWith(s, "WITH new_group AS", 5);
    UpperNeverStartsWith(s, "UPDATE todos", 7);
    UpperNeverStartsWith(s, "DELETE FROM todos", 12);
    NoPatternMatches(ToUpper(s), "WITH new_group AS", "UPDATE todos", "DELETE FROM todos");
  }

  /** A command that starts with none of the three patterns is a SELECT, an INSERT or nothing. */
  lemma NoPatternMatches(command: string, cte: string, update: string, delete: string)
    requires !StartsWith(command, cte) && !StartsWith(command, update) && !StartsWith(command, delete)
    ensures ClassifyCommand(command, cte, update, delete) in {Select, Insert, Unrecognised}
  {
  }

  /** The classification with the patterns upper-cased like the text they are compared with. */
  function Classify(text: string): Command {
    ClassifyCommand(CommandText(text), ToUpper("WITH new_group AS"), ToUpper("UPDATE todos"), ToUpper("DELETE FROM todos"))
  }

  /** A keyword that neither starts nor ends with space survives trimming at the front of a statement. */
  lemma {:induction false} TrimKeepsKeyword(keyword: string, rest: string)
    requires keyword != "" && !IsSpace(keyword[0]) && !IsSpace(keyword[|keyword| - 1])
    ensures StartsWith(Trim(keyword + rest), keyword)
  {
    var x := keyword + rest;
    assert x[0] == keyword[0];
    assert TrimStart(x) == x;
    assert x[|keyword| - 1] == keyword[|keyword| - 1];
    var r := TrimEnd(x);
    assert |keyword| <= |r|;
    assert r[..|keyword|] == x[..|keyword|];
    assert x[..|keyword|] == keyword;
  }

  lemma {:induction false} UpperKeepsPrefix(s: string, p: string)
    requires StartsWith(s, p)
    ensures StartsWith(ToUpper(s), ToUpper(p))
  {
    assert forall i :: 0 <= i < |p| ==> ToUpper(s)[i] == UpperChar(s[i]) == UpperChar(p[i]);
  }

  /** The statement after trimming and upper-casing starts with the upper-cased keyword. */
  lemma {:induction false} CommandStartsWith(keyword: string, rest: string)
    requires keyword != "" && !IsSpace(keyword[0]) && !IsSpace(keyword[|keyword| - 1])
    ensures StartsWith(CommandText(keyword + rest), ToUpper(keyword))
  {
    TrimKeepsKeyword(keyword, rest);
    UpperKeepsPrefix(Trim(keyword + rest), keyword);
  }

  /** The first character of the command text is the upper-cased first character of the keyword. */
  lemma CommandFirst(keyword: string, rest: string)
    requires keyword != "" && !IsSpace(keyword[0]) && !IsSpace(keyword[|keyword| - 1])
    ensures CommandText(keyword + rest) != "" && CommandText(keyword + rest)[0] == UpperChar(keyword[0])
  {
    CommandStartsWith(keyword, rest);
    assert ToUpper(keyword)[0] == UpperChar(keyword[0]);
  }

  /** As written, a statement that starts with neither `S` nor `I` is not recognised. */
  lemma AsWrittenUnrecognised(text: string)
    requires CommandText(text) != "" && CommandText(text)[0] != 'S' && CommandText(text)[0] != 'I'
    ensures ClassifyAsWritten(text) == Unrecognised
  {
    var c := CommandText(text);
    AsWrittenOnlySelectsAndInserts(text);
    assert !StartsWith(c, "SELECT") by {
      if 6 <= |c| {
        assert c[..6][0] == c[0];
      }
    }
    assert !StartsWith(c, "INSERT") by {
      if 6 <= |c| {
        assert c[..6][0] == c[0];
      }
    }
    assert ClassifyAsWritten(text) == ClassifyCommand(c, "WITH new_group AS", "UPDATE todos", "DELETE FROM todos");
  }

  /** As written, a `DELETE FROM todos` statement is not recognised. */
  lemma DeleteIsIgnoredAsWritten(rest: string)
    ensures ClassifyAsWritten("DELETE FROM todos" + rest) == Unrecognised
  {
    CommandFirst("DELETE FROM todos", rest);
    AsWrittenUnrecognised("DELETE FROM todos" + rest);
  }

  /** Corrected, a `DELETE FROM todos` statement is recognised as the delete it is. */
  lemma DeleteIsRecognised(rest: string)
    ensures Classify("DELETE FROM todos" + rest) == Delete
  {
    var c := CommandText("DELETE FROM todos" + rest);
    CommandStartsWith("DELETE FROM todos", rest);
    var d := ToUpper("DELETE FROM todos");
    var w := ToUpper("WITH new_group AS");
    var u := ToUpper("UPDATE todos");
    assert d[0] == 'D' && w[0] == 'W' && u[0] == 'U';
    StartsDiffer(c, d, "SELECT");
    StartsDiffer(c, d, "INSERT");
    StartsDiffer(c, d, w);
    StartsDiffer(c, d, u);
  }

  /** As written, the group-creating `WITH new_group AS` statement is not recognised. */
  lemma CteIsIgnoredAsWritten(rest: string)
    ensures ClassifyAsWritten("WITH new_group AS" + rest) == Unrecognised
  {
    CommandFirst("WITH new_group AS", rest);
    AsWrittenUnrecognised("WITH new_group AS" + rest);
  }

  /** Corrected, it is recognised as the group-creating statement. */
  lemma CteIsRecognised(rest: string)
    ensures Classify("WITH new_group AS" + rest) == CreateGroupCte
  {
    var c := CommandText("WITH new_group AS" + rest);
    CommandStartsWith("WITH new_group AS", rest);
    var w := ToUpper("WITH new_group AS");
    assert w[0] == 'W';
    StartsDiffer(c, w, "SELECT");
    StartsDiffer(c, w, "INSERT");
  }

  // ------------------------------------------------------------------------------------------
  // SELECT

  datatype Table = NoTable | Groups | GroupMembers | Todos | Users

  /**
   * The table of a SELECT: the `FROM` clauses are checked for groups, group_members, todos
   * and auth_users in this order, each overwriting the last, so of several the one checked
   * last wins.
   */
  function SelectTable(text: string): (t: Table)
    ensures t == Users <==> Contains(text, "FROM auth_users")
    ensures t == Todos <==> Contains(text, "FROM todos") && !Contains(text, "FROM auth_users")
    ensures t == GroupMembers <==>
      Contains(text, "FROM group_members") && !Contains(text, "FROM todos") && !Contains(text, "FROM auth_users")
    ensures t == Groups <==>
      (Contains(text, "FROM groups") && !Contains(text, "FROM group_members")
       && !Contains(text, "FROM todos") && !Contains(text, "FROM auth_users"))
    ensures t == NoTable <==>
      (!Contains(text, "FROM groups") && !Contains(text, "FROM group_members")
       && !Contains(text, "FROM todos") && !Contains(text, "FROM auth_users"))
  {
    if Contains(text, "FROM auth_users") then Users
    else if Contains(text, "FROM todos") then Todos
    else if Contains(text, "FROM group_members") then GroupMembers
    else if Contains(text, "FROM groups") then Groups
    else NoTable
  }

  /** The memberships a `group_members` SELECT keeps. */
  function MemberRows(members: seq<Member>, text: string, values: seq<Param>): (r: seq<Member>)
    ensures IsSubseq(r, members)
    ensures !Contains(text, "WHERE group_id =") || !ParamTruthy(At(values, 0)) ==> r == members
    ensures Contains(text, "WHERE group_id =") && ParamTruthy(At(values, 0)) && ParamTruthy(At(values, 1)) ==>
      forall m :: m in r <==> m in members && LooseEq(Some(m.group_id), At(values, 0)) && LooseEq(Some(m.user_id), At(values, 1))
    ensures Contains(text, "WHERE group_id =") && ParamTruthy(At(values, 0)) && !ParamTruthy(At(values, 1)) ==>
      forall m :: m in r <==> m in members && LooseEq(Some(m.group_id), At(values, 0))
  {
    var groupId := At(values, 0);
    var userId := At(values, 1);
    if Contains(text, "WHERE group_id =") && ParamTruthy(groupId) && ParamTruthy(userId) then
      FilterIsSubseq(members, (m: Member) => LooseEq(Some(m.group_id), groupId) && LooseEq(Some(m.user_id), userId));
      Filter(members, (m: Member) => LooseEq(Some(m.group_id), groupId) && LooseEq(Some(m.user_id), userId))
    else if Contains(text, "WHERE group_id =") && ParamTruthy(groupId) then
      FilterIsSubseq(members, (m: Member) => LooseEq(Some(m.group_id), groupId));
      Filter(members, (m: Member) => LooseEq(Some(m.group_id), groupId))
    else
      SubseqRefl(members);
      members
  }

  lemma {:induction false} SubseqRefl<T>(s: seq<T>)
    ensures IsSubseq(s, s)
  {
    if s != [] {
      SubseqRefl(s[1..]);
    }
  }

  /** The ids of the groups in which the parameter (loosely) names a member. */
  function GroupIdsOf(members: seq<Member>, userId: Param): (ids: seq<string>)
    ensures forall gid :: gid in ids <==> exists m :: m in members && LooseEq(Some(m.user_id), userId) && m.group_id == gid
  {
    var mine := Filter(members, (m: Member) => LooseEq(Some(m.user_id), userId));
    MapMembers(mine, (m: Member) => m.group_id);
    Map(mine, (m: Member) => m.group_id)
  }

  /** The groups a `groups` SELECT returns: with the membership join, only the user's groups. */
  function GroupRows(s: Snapshot, text: string, values: seq<Param>): seq<Group> {
    if Contains(text, "INNER JOIN group_members") then
      var ids := GroupIdsOf(s.group_members, At(values, 0));
      Filter(s.groups, (g: Group) => g.id in ids)
    else s.groups
  }

  /** Which `todos` SELECT it is; of the patterns, the first found decides. */
  datatype TodoScope = ByGroup | Personal | Dashboard | AllTodos

  function ScopeOf(text: string): TodoScope {
    if Contains(text, "WHERE t.group_id =") then ByGroup
    else if Contains(text, "WHERE t.group_id IS NULL AND t.created_by =") then Personal
    else if Contains(text, "WHERE (gm.user_id =") then Dashboard
    else AllTodos
  }

  /** The todos a `todos` SELECT keeps. */
  function TodoRows(s: Snapshot, text: string, values: seq<Param>): (r: seq<Todo>)
    ensures IsSubseq(r, s.todos)
    ensures ScopeOf(text) == ByGroup ==>
      forall t :: t in r <==> t in s.todos && LooseEq(t.group_id, At(values, 0))
    ensures ScopeOf(text) == Personal ==>
      forall t :: t in r <==> t in s.todos && !Truthy(t.group_id) && LooseEq(Some(t.created_by), At(values, 0))
    ensures ScopeOf(text) == Dashboard ==>
      forall t :: t in r <==> (t in s.todos
        && ((t.group_id.Some?
             && exists m :: m in s.group_members && LooseEq(Some(m.user_id), At(values, 0)) && m.group_id == t.group_id.value)
            || (!Truthy(t.group_id) && LooseEq(Some(t.created_by), At(values, 0)))))
    ensures ScopeOf(text) == AllTodos ==> r == s.todos
  {
    var p := At(values, 0);
    match ScopeOf(text)
    case ByGroup =>
      FilterIsSubseq(s.todos, (t: Todo) => LooseEq(t.group_id, p));
      Filter(s.todos, (t: Todo) => LooseEq(t.group_id, p))
    case Personal =>
      FilterIsSubseq(s.todos, (t: Todo) => !Truthy(t.group_id) && LooseEq(Some(t.created_by), p));
      Filter(s.todos, (t: Todo) => !Truthy(t.group_id) && LooseEq(Some(t.created_by), p))
    case Dashboard =>
      var ids := GroupIdsOf(s.group_members, p);
      FilterIsSubseq(s.todos, (t: Todo) => (t.group_id.Some? && t.group_id.value in ids)
                                           || (!Truthy(t.group_id) && LooseEq(Some(t.created_by), p)));
      Filter(s.todos, (t: Todo) => (t.group_id.Some? && t.group_id.value in ids)
                                   || (!Truthy(t.group_id) && LooseEq(Some(t.created_by), p)))
    case AllTodos =>
      SubseqRefl(s.todos);
      s.todos
  }

  /** A todo joined with its group's name, as every `todos` SELECT returns it. */
  function Joined(groups: seq<Group>, todos: seq<Todo>): (r: seq<Row>)
    ensures |r| == |todos|
    ensures forall i :: 0 <= i < |todos| ==> r[i] == JoinedTodoRow(todos[i], AccessLayer.GroupName(groups, todos[i].group_id))
  {
    Map(todos, (t: Todo) => JoinedTodoRow(t, AccessLayer.GroupName(groups, t.group_id)))
  }

  /** The rows of a SELECT before `LIMIT 1` is applied. */
  function SelectRows(s: Snapshot, text: string, values: seq<Param>): seq<Row> {
    match SelectTable(text)
    case NoTable => []
    case Users => Map(s.users, (u: User) => UserRow(u))
    case GroupMembers =>
      var ms := if Contains(text, "WHERE group_id =") then MemberRows(s.group_members, text, values) else s.group_members;
      Map(ms, (m: Member) => MemberRow(m))
    case Groups => Map(GroupRows(s, text, values), (g: Group) => GroupRow(g))
    case Todos => Joined(s.groups, TodoRows(s, text, values))
  }

  /** A SELECT: `LIMIT 1` keeps only the first row. */
  function SelectResult(s: Snapshot, text: string, values: seq<Param>): (r: seq<Row>)
    ensures |r| <= |SelectRows(s, text, values)| && r == SelectRows(s, text, values)[..|r|]
    ensures Contains(text, "LIMIT 1") ==> |r| <= 1 && (SelectRows(s, text, values) != [] ==> |r| == 1)
    ensures !Contains(text, "LIMIT 1") ==> r == SelectRows(s, text, values)
  {
    var rows := SelectRows(s, text, values);
    if Contains(text, "LIMIT 1") && |rows| > 0 then [rows[0]] else rows
  }

  /** The membership-join SELECT of a user's groups agrees with `db.groups.findMemberGroups`. */
  lemma JoinedGroupsAreMemberGroups(s: Snapshot, text: string, values: seq<Param>, userId: string)
    requires SelectTable(text) == Groups && Contains(text, "INNER JOIN group_members")
    requires At(values, 0) == Str(userId)
    ensures SelectRows(s, text, values) == Map(AccessLayer.FindMemberGroups(s, userId), (g: Group) => GroupRow(g))
  {
    FilterExt(s.group_members, (m: Member) => LooseEq(Some(m.user_id), At(values, 0)),
              (m: Member) => m.user_id == userId);
    var ids := GroupIdsOf(s.group_members, At(values, 0));
    assert ids == AccessLayer.MemberGroupIds(s.group_members, userId);
  }

  /** The dashboard SELECT returns, row for row, what `db.todos.list` returns for the dashboard. */
  lemma DashboardSelectIsDashboardList(s: Snapshot, text: string, values: seq<Param>, userId: string)
    requires SelectTable(text) == Todos && ScopeOf(text) == Dashboard
    requires At(values, 0) == Str(userId)
    ensures SelectRows(s, text, values)
         == Map(AccessLayer.ListTodos(s, userId, None),
                (row: AccessLayer.TodoRow) => JoinedTodoRow(row.todo, AccessLayer.GroupName(s.groups, row.todo.group_id)))
  {
    var p := At(values, 0);
    FilterExt(s.group_members, (m: Member) => LooseEq(Some(m.user_id), p), (m: Member) => m.user_id == userId);
    var ids := GroupIdsOf(s.group_members, p);
    assert ids == AccessLayer.MemberGroupIds(s.group_members, userId);
    FilterExt(s.todos, (t: Todo) => (t.group_id.Some? && t.group_id.value in ids)
                                    || (!Truthy(t.group_id) && LooseEq(Some(t.created_by), p)),
              (t: Todo) => (t.group_id.Some? && t.group_id.value in ids) || AccessLayer.IsPersonalOf(t, userId));
  }

  // ------------------------------------------------------------------------------------------
  // INSERT, the group-creating statement, DELETE

  /**
   * The table of an INSERT: the `INTO` clauses are checked for groups, todos and
   * group_members in this order, so of several the one checked last wins.
   */
  function InsertTable(text: string): (t: Table)
    ensures t != Users
    ensures t == GroupMembers <==> Contains(text, "INTO group_members")
    ensures t == Todos <==> Contains(text, "INTO todos") && !Contains(text, "INTO group_members")
    ensures t == Groups <==>
      Contains(text, "INTO groups") && !Contains(text, "INTO todos") && !Contains(text, "INTO group_members")
    ensures t == NoTable <==>
      !Contains(text, "INTO groups") && !Contains(text, "INTO todos") && !Contains(text, "INTO group_members")
  {
    if Contains(text, "INTO group_members") then GroupMembers
    else if Contains(text, "INTO todos") then Todos
    else if Contains(text, "INTO groups") then Groups
    else NoTable
  }

  /** The new item an INSERT builds from the values and returns, whether or not it stores it. */
  function NewItem(text: string, values: seq<Param>, item: Stamp): (r: Row)
    ensures InsertTable(text) == GroupMembers ==>
      r == MemberRow(Member(item.id, TextOf(At(values, 0)), TextOf(At(values, 1)), None, Some(item.at)))
    ensures InsertTable(text) == Groups ==>
      r == GroupRow(Group(item.id, TextOf(At(values, 0)), TextOf(At(values, 1)), item.at))
    ensures InsertTable(text) == Todos ==>
      r.TodoRow? && r.todo.id == item.id && r.todo.created_at == item.at && !r.todo.completed
      && r.todo.group_id == OptionOf(At(values, 0)) && r.todo.title == TextOf(At(values, 1))
      && r.todo.created_by == TextOf(At(values, 2)) && r.todo.due_date == OptionOf(At(values, 3))
      && r.todo.assigned_to == ListOf(At(values, 4))
    ensures InsertTable(text) == NoTable ==> r == ItemRow(item.id, item.at)
  {
    match InsertTable(text)
    case Groups => GroupRow(Group(item.id, TextOf(At(values, 0)), TextOf(At(values, 1)), item.at))
    case Todos => TodoRow(Todo(item.id, TextOf(At(values, 2)), TextOf(At(values, 1)), OptionOf(At(values, 0)),
                               OptionOf(At(values, 3)), ListOf(At(values, 4)), false, item.at))
    case GroupMembers => MemberRow(Member(item.id, TextOf(At(values, 0)), TextOf(At(values, 1)), None, Some(item.at)))
    case _ => ItemRow(item.id, item.at)
  }

  /** Whether a membership row already (loosely) links the two values. */
  predicate MemberExists(members: seq<Member>, values: seq<Param>) {
    Find(members, (m: Member) => LooseEq(Some(m.group_id), At(values, 0)) && LooseEq(Some(m.user_id), At(values, 1))).Some?
  }

  /** The store after an INSERT: the new item is appended, except a membership that already exists. */
  function AfterInsert(s: Snapshot, text: string, values: seq<Param>, item: Stamp): (r: Snapshot)
    ensures InsertTable(text) == NoTable ==> r == s
    ensures InsertTable(text) == GroupMembers && MemberExists(s.group_members, values) ==> r == s
    ensures InsertTable(text) == GroupMembers && !MemberExists(s.group_members, values) ==>
      r == s.(group_members := s.group_members + [NewItem(text, values, item).member])
    ensures InsertTable(text) == Groups ==> r == s.(groups := s.groups + [NewItem(text, values, item).group])
    ensures InsertTable(text) == Todos ==> r == s.(todos := s.todos + [NewItem(text, values, item).todo])
  {
    match NewItem(text, values, item)
    case GroupRow(g) => s.(groups := s.groups + [g])
    case TodoRow(t) => s.(todos := s.todos + [t])
    case MemberRow(m) => if MemberExists(s.group_members, values) then s else s.(group_members := s.group_members + [m])
    case _ => s
  }

  /** Inserting a membership twice stores it once. */
  lemma MemberInsertIsIdempotent(s: Snapshot, text: string, a: string, b: string, rest: seq<Param>, first: Stamp, second: Stamp)
    requires InsertTable(text) == GroupMembers
    ensures var values := [Str(a), Str(b)] + rest;
      AfterInsert(AfterInsert(s, text, values, first), text, values, second) == AfterInsert(s, text, values, first)
  {
    var values := [Str(a), Str(b)] + rest;
    var s1 := AfterInsert(s, text, values, first);
    if !MemberExists(s.group_members, values) {
      var m := Member(first.id, a, b, None, Some(first.at));
      assert s1.group_members == s.group_members + [m];
      assert m in s1.group_members;
    }
  }

  /** The group the group-creating statement creates: values are the name and the creator. */
  function CteGroup(values: seq<Param>, group: Stamp): Group {
    Group(group.id, TextOf(At(values, 0)), TextOf(At(values, 1)), group.at)
  }

  function AfterCte(s: Snapshot, values: seq<Param>, group: Stamp, member: Stamp): Snapshot {
    var g := CteGroup(values, group);
    s.(groups := s.groups + [g],
       group_members := s.group_members + [Member(member.id, g.id, TextOf(At(values, 1)), Some(member.at), None)])
  }

  /** The group-creating statement does what `db.groups.create` does. */
  lemma CteIsCreateGroup(s: Snapshot, name: string, userId: string, rest: seq<Param>, group: Stamp, member: Stamp)
    ensures var g := Group(group.id, name, userId, group.at);
      AfterCte(s, [Str(name), Str(userId)] + rest, group, member)
        == s.(groups := s.groups + [g], group_members := s.group_members + [AccessLayer.CreatorMembership(g, member)])
  {
  }

  /** The todos after DELETE: those whose id (loosely) equals the first value are removed. */
  function AfterDelete(s: Snapshot, values: seq<Param>): (r: Snapshot)
    ensures r == s.(todos := r.todos)
    ensures forall t :: t in r.todos <==> t in s.todos && !LooseEq(Some(t.id), At(values, 0))
  {
    s.(todos := Filter(s.todos, (t: Todo) => !LooseEq(Some(t.id), At(values, 0))))
  }

  /** DELETE with an id does what `db.todos.delete` does. */
  lemma DeleteIsDeleteTodo(s: Snapshot, todoId: string, rest: seq<Param>)
    ensures AfterDelete(s, [Str(todoId)] + rest).todos == AccessLayer.WithoutTodo(s.todos, todoId)
  {
    FilterExt(s.todos, (t: Todo) => !LooseEq(Some(t.id), At([Str(todoId)] + rest, 0)), (t: Todo) => t.id != todoId);
  }

  // ------------------------------------------------------------------------------------------
  // Running a statement

  /** What one statement returns and the store it leaves. */
  datatype Outcome = Outcome(rows: seq<Row>, store: Snapshot)

  /** The effect of a statement once classified; UPDATE is recognised but does nothing. */
  function Step(s: Snapshot, cmd: Command, text: string, values: seq<Param>, first: Stamp, second: Stamp): (o: Outcome)
    ensures cmd == Select || cmd == Update || cmd == Unrecognised ==> o.store == s
    ensures cmd == Update || cmd == Unrecognised ==> o.rows == []
    ensures cmd == Insert ==>
      o.rows == [NewItem(text, values, first)] && o.store == AfterInsert(s, text, values, first)
    ensures cmd == CreateGroupCte ==>
      o.rows == [GroupRow(CteGroup(values, first))] && o.store == AfterCte(s, values, first, second)
    ensures cmd == Delete ==> o.rows == [SuccessRow] && o.store == AfterDelete(s, values)
  {
    match cmd
    case Select => Outcome(SelectResult(s, text, values), s)
    case Insert => Outcome([NewItem(text, values, first)], AfterInsert(s, text, values, first))
    case CreateGroupCte => Outcome([GroupRow(CteGroup(values, first))], AfterCte(s, values, first, second))
    case Update => Outcome([], s)
    case Delete => Outcome([SuccessRow], AfterDelete(s, values))
    case Unrecognised => Outcome([], s)
  }

  /** As written, a delete statement returns nothing and deletes nothing. */
  lemma DeleteIsLostAsWritten(s: Snapshot, rest: string, values: seq<Param>, first: Stamp, second: Stamp)
    ensures Step(s, ClassifyAsWritten("DELETE FROM todos" + rest), "DELETE FROM todos" + rest, values, first, second)
         == Outcome([], s)
  {
    DeleteIsIgnoredAsWritten(rest);
    assert Step(s, Unrecognised, "DELETE FROM todos" + rest, values, first, second) == Outcome([], s);
  }

  /** Corrected, a delete statement with a todo id removes that todo, as `db.todos.delete` does. */
  lemma DeleteRemovesTodo(s: Snapshot, rest: string, todoId: string, more: seq<Param>, first: Stamp, second: Stamp)
    ensures var o := Step(s, Classify("DELETE FROM todos" + rest), "DELETE FROM todos" + rest,
                          [Str(todoId)] + more, first, second);
      o.rows == [SuccessRow] && o.store == s.(todos := AccessLayer.WithoutTodo(s.todos, todoId))
  {
    var text := "DELETE FROM todos" + rest;
    var values := [Str(todoId)] + more;
    DeleteIsRecognised(rest);
    DeleteIsDeleteTodo(s, todoId, more);
    assert Step(s, Delete, text, values, first, second) == Outcome([SuccessRow], AfterDelete(s, values));
  }

  /** As written, the group-creating statement returns nothing and creates nothing. */
  lemma CteIsLostAsWritten(s: Snapshot, rest: string, values: seq<Param>, first: Stamp, second: Stamp)
    ensures Step(s, ClassifyAsWritten("WITH new_group AS" + rest), "WITH new_group AS" + rest, values, first, second)
         == Outcome([], s)
  {
    CteIsIgnoredAsWritten(rest);
    assert Step(s, Unrecognised, "WITH new_group AS" + rest, values, first, second) == Outcome([], s);
  }

  /**
   * Corrected, the group-creating statement answers the new group and stores it with its
   * creator's membership, as `db.groups.create` does.
   */
  lemma CteCreatesGroup(s: Snapshot, rest: string, name: string, userId: string, more: seq<Param>,
                        first: Stamp, second: Stamp)
    ensures var g := Group(first.id, name, userId, first.at);
      var o := Step(s, Classify("WITH new_group AS" + rest), "WITH new_group AS" + rest,
                    [Str(name), Str(userId)] + more, first, second);
      o.rows == [GroupRow(g)]
      && o.store == s.(groups := s.groups + [g],
                       group_members := s.group_members + [AccessLayer.CreatorMembership(g, second)])
  {
    var text := "WITH new_group AS" + rest;
    var values := [Str(name), Str(userId)] + more;
    CteIsRecognised(rest);
    CteIsCreateGroup(s, name, userId, more, first, second);
    assert Step(s, CreateGroupCte, text, values, first, second)
        == Outcome([GroupRow(CteGroup(values, first))], AfterCte(s, values, first, second));
  }

  /**
   * The branch of `sql` for one kind of statement; `first` and `second` are the generated id
   * and clock reading of the first and second new record.
   */
  method Run(db: LocalDb, cmd: Command, text: string, values: seq<Param>, first: Stamp, second: Stamp)
    returns (rows: seq<Row>)
    modifies db
    ensures rows == Step(old(db.Read()), cmd, text, values, first, second).rows
    ensures db.Read() == Step(old(db.Read()), cmd, text, values, first, second).store
  {
    var s := db.Read();
    match cmd
    case Select =>
      rows := SelectResult(s, text, values);
    case Insert =>
      var item := NewItem(text, values, first);
      match item {
        case GroupRow(g) => db.groups := db.groups + [g];
        case TodoRow(t) => db.todos := db.todos + [t];
        case MemberRow(m) =>
          if !MemberExists(db.group_members, values) {
            db.group_members := db.group_members + [m];
          }
        case _ =>
      }
      rows := [item];
    case CreateGroupCte =>
      var g := CteGroup(values, first);
      db.groups := db.groups + [g];
      db.group_members := db.group_members + [Member(second.id, g.id, TextOf(At(values, 1)), Some(second.at), None)];
      rows := [GroupRow(g)];
    case Update =>
      rows := [];
    case Delete =>
      db.todos := AfterDelete(s, values).todos;
      rows := [SuccessRow];
    case Unrecognised =>
      rows := [];
  }

  /** `sql`: classifies the statement (with the corrected patterns) and runs it. */
  method Execute(db: LocalDb, text: string, values: seq<Param>, first: Stamp, second: Stamp) returns (rows: seq<Row>)
    modifies db
    ensures rows == Step(old(db.Read()), Classify(text), text, values, first, second).rows
    ensures db.Read() == Step(old(db.Read()), Classify(text), text, values, first, second).store
  {
    rows := Run(db, Classify(text), text, values, first, second);
  }

  /** `sql` as written: the statement is classified with the patterns as the source spells them. */
  method ExecuteAsWritten(db: LocalDb, text: string, values: seq<Param>, first: Stamp, second: Stamp)
    returns (rows: seq<Row>)
    modifies db
    ensures rows == Step(old(db.Read()), ClassifyAsWritten(text), text, values, first, second).rows
    ensures db.Read() == Step(old(db.Read()), ClassifyAsWritten(text), text, values, first, second).store
    ensures forall t :: t in old(db.todos) ==> t in db.todos
  {
    AsWrittenNeverRemovesTodos(db.Read(), text, values, first, second);
    rows := Run(db, ClassifyAsWritten(text), text, values, first, second);
  }

  /** As written, no statement removes a todo: a SELECT or an unrecognised one keeps the store, an INSERT appends. */
  lemma AsWrittenNeverRemovesTodos(s: Snapshot, text: string, values: seq<Param>, first: Stamp, second: Stamp)
    ensures forall t :: t in s.todos ==> t in Step(s, ClassifyAsWritten(text), text, values, first, second).store.todos
  {
    AsWrittenOnlySelectsAndInserts(text);
    ReadsAndInsertsKeepTodos(s, ClassifyAsWritten(text), text, values, first, second);
  }

  lemma ReadsAndInsertsKeepTodos(s: Snapshot, cmd: Command, text: string, values: seq<Param>, first: Stamp, second: Stamp)
    requires cmd in {Select, Insert, Unrecognised}
    ensures forall t :: t in s.todos ==> t in Step(s, cmd, text, values, first, second).store.todos
  {
    if cmd == Insert {
      var r := AfterInsert(s, text, values, first);
      assert r.todos == s.todos || r.todos == s.todos + [NewItem(text, values, first).todo];
    }
  }

  /**
   * `sql.transaction`: the callers pass statements that have already been started, so each
   * `await` only collects a result; the transaction is the ordered list of those results.
   */
  method Transaction(pending: seq<seq<Row>>) returns (results: seq<seq<Row>>)
    ensures results == pending
  {
    results := [];
    var i := 0;
    while i < |pending|
      invariant 0 <= i <= |pending|
      invariant results == pending[..i]
    {
      results := results + [pending[i]];
      i := i + 1;
    }
  }
}
