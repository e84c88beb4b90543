# Group todos: the local JSON store and its API

This project models the server core of a small web application for shared todo lists.
Users sign in and form groups. Each group has todos, notes and a message thread, and every
user also has personal todos and notes. Everything lives in one JSON file, `local-db.json`.
Three pieces of code read that file whole, change it, and write it back:

- `db.js`, the data layer the API routes call: groups and members, user search, todos
  (list, create, update, delete, access check), notes and messages;
- `mock-adapter.ts`, the storage adapter of the authentication library: users, accounts,
  sessions and verification tokens;
- `sql.js`, a stand-in for a SQL client. It recognises a few statement shapes by
  looking at the first template fragment of a tagged template.

Four route handlers sit on top: `GET`/`POST /api/groups`, `GET`/`POST /api/todos`,
`GET`/`POST /api/notes` and `GET /api/users/search`.

## Modelling choices

- **The store.** The file is the class `LocalStore.LocalDb`, with one `seq` field per
  collection. `Read()` gives its content as the value `LocalStore.Snapshot`.
  - Each store operation is a `method` that modifies the object. Its `ensures` gives the
    whole new state in terms of the old one.
  - Each query is a `function` on a `Snapshot`. Its `ensures` says which records it returns.
- **Records.** These are datatypes in `Records`. Nullable JSON fields are `Option`s, and
  JavaScript truthiness of a nullable string is `Records.Truthy` (present and not empty).
- **Spread merges.** The `{...a, ...b}` merges (todo update, user update, session update)
  take patches whose fields are `Field.Keep` (key absent) or `Field.Set(v)`.
- **Side inputs.** Random ids and the clock become `Stamp(id, at)` parameters. The
  signed-in user's id, which `auth()` obtains from the session cookie, becomes an
  `Option<string>` parameter. Request bodies become parameters: strings and arrays of
  strings, or a `Http.Json` value where the handler tests the JSON type.
- **Modules.** They follow the program:
  - `Seqs` and `Text` hold the JavaScript array and string built-ins;
  - `AccessLayer` is `db.js`, `MockAdapter` is `mock-adapter.ts`, `MockSql` is `sql.js`;
  - `Http` holds what the routes share;
  - `GroupsRoute`, `TodosRoute`, `NotesRoute` and `UserSearchRoute` are the handlers.

Visible-todo rule: `todos.checkAccess` and the dashboard listing disagree in one corner.
A todo whose group id is the empty string is private to its author for `checkAccess`.
The dashboard, though, lists it to anyone with a membership row whose group id is also
empty. `TodosRoute.ListedTodosAreVisible` states what every listed todo satisfies, corner included: it is stored and visible to the user by `AccessLayer.CanSee`. `todos.checkAccess` reads the first todo with an id, so the listed todos pass it when ids are unique, which `TodosRoute.ListedTodosPassAccessCheck` proves. Real
group ids are generated and never empty.

## Model

| member | source | states |
|---|---|---|
| Seqs.Filter | apps/web/src/app/api/utils/db.js:46 | the kept elements are exactly those of the input satisfying the predicate, never more of them |
| Seqs.Map | apps/web/src/app/api/utils/sql.js:74 | `Array.prototype.map`: same length, each element the image of the input element at its position |
| Seqs.MapMembers | apps/web/src/app/api/utils/db.js:47 | every mapped value comes from some input element, and every input element's image is present |
| Seqs.FindIndex | apps/web/__create/mock-adapter.ts:40 | -1 when nothing matches, otherwise the first matching position |
| Seqs.Find | apps/web/__create/mock-adapter.ts:55 | none exactly when nothing matches; otherwise a matching element, and the one at the first matching position |
| Seqs.FindInFiltered | apps/web/src/app/api/utils/db.js:55 | searching a filtered list for q finds what searching the whole list for p-and-q finds |
| Seqs.RemoveAt | apps/web/__create/mock-adapter.ts:42 | `splice(i, 1)`: one element shorter, the others kept in order |
| Seqs.FilterIsSubseq | apps/web/src/app/api/utils/db.js:128 | a filter keeps its input's order: the result is a subsequence |
| Seqs.FilterConcat | apps/web/src/app/api/utils/db.js:85 | filtering a concatenation is concatenating the filtered parts |
| Seqs.FilterExt | apps/web/src/app/api/utils/db.js:78 | filters with predicates that agree on the elements give the same list |
| Seqs.FilterKeepsAll | apps/web/src/app/api/utils/db.js:78 | a filter every element passes returns its input |
| Seqs.FilterIdempotent | apps/web/src/app/api/utils/db.js:128 | filtering twice by the same predicate is filtering once |
| Text.TrimStart | apps/web/src/app/api/groups/route.js:32 | the result is a suffix with no leading white space, and only white space was removed |
| Text.TrimEnd | apps/web/src/app/api/groups/route.js:32 | the result is a prefix with no trailing white space, and only white space was removed |
| Text.Trim | apps/web/src/app/api/groups/route.js:39 | `String.prototype.trim`: no white space at either end of a non-empty result |
| Text.TrimIdempotent | apps/web/src/app/api/groups/route.js:39 | trimming a trimmed name changes nothing |
| Text.TrimEmptyIffAllSpace | apps/web/src/app/api/groups/route.js:32 | the trimmed name is empty exactly when the name is all white space |
| Text.StartsWith | apps/web/src/app/api/utils/sql.js:46 | `String.prototype.startsWith`: the pattern is a prefix |
| Text.Contains | apps/web/src/app/api/utils/sql.js:51 | `String.prototype.includes`: the pattern occurs at some position |
| Text.ToUpper | apps/web/src/app/api/utils/sql.js:42 | same length, character by character upper-cased, no lower-case letter left |
| Text.ToLower | apps/web/src/app/api/utils/db.js:78 | same length, character by character lower-cased, no upper-case letter left |
| Text.ToLowerIdempotent | apps/web/src/app/api/utils/db.js:78 | lower-casing twice is lower-casing once |
| LocalStore.LocalDb.Read | apps/web/src/app/api/utils/db.js:6-10 | the content of every collection of the store, as `readDb()` parses it |
| AccessLayer.AppendKeepsUnique | apps/web/src/app/api/utils/db.js:55-56 | appending a membership for a new (group, user) pair keeps memberships unique |
| AccessLayer.MemberGroupIds | apps/web/src/app/api/utils/db.js:46-47 | a group id is listed exactly when the user has a membership row for it |
| AccessLayer.FindMemberGroups | apps/web/src/app/api/utils/db.js:44-49 | a group is returned exactly when it is stored and the user is its member, in stored order |
| AccessLayer.CreatorMembership | apps/web/src/app/api/utils/db.js:32-37 | the creator's membership row names the new group and the creator, with a join time |
| AccessLayer.MemberGroupsAfterCreate | apps/web/src/app/api/utils/db.js:20-43 | after a create with a new group id, the creator's groups gain exactly the new group at the end; everyone else's are unchanged |
| AccessLayer.CreateGroup | apps/web/src/app/api/utils/db.js:20-43 | stores the group and its creator's membership and returns the group; the creator's group list grows by it and uniqueness of memberships is kept |
| AccessLayer.AddMember | apps/web/src/app/api/utils/db.js:52-66 | no change when the user already belongs; otherwise one new row; afterwards the user is a member; uniqueness of memberships is kept |
| AccessLayer.FirstJoinedIsJoinedAt | apps/web/src/app/api/utils/db.js:72 | the first of the group's rows for the user gives the join time reported |
| AccessLayer.ListMembers | apps/web/src/app/api/utils/db.js:67-73 | each listed user is a stored member of the group with the join time of their first membership row, and every member user is listed; the listed users in the order of the users collection |
| AccessLayer.SearchUsers | apps/web/src/app/api/utils/db.js:76-79 | a user is returned exactly when it has an email containing the query, ignoring case; stored order kept |
| AccessLayer.SearchIgnoresQueryCase | apps/web/src/app/api/utils/db.js:78 | queries equal up to case return the same users |
| AccessLayer.EmptyQueryMatchesAll | apps/web/src/app/api/utils/db.js:78 | the empty query returns every user that has an email |
| AccessLayer.GroupName | apps/web/src/app/api/utils/db.js:94-95 | null exactly when no group has the todo's group id, otherwise the name of such a group |
| AccessLayer.PlainRows | apps/web/src/app/api/utils/db.js:85-88 | the plain rows of a filtered list are exactly its todos |
| AccessLayer.AnnotatedRows | apps/web/src/app/api/utils/db.js:92-96 | the annotated rows are exactly the todos, each with its group's name |
| AccessLayer.ListTodos | apps/web/src/app/api/utils/db.js:82-97 | "personal": the user's todos without a group; a group id: the group's todos; otherwise the dashboard (todos of the user's groups and the user's personal todos), each with its group name; the listed todos in stored order |
| AccessLayer.ListTodosAfterAppend | apps/web/src/app/api/utils/db.js:98-114 | appending a todo extends every listing by what that todo lists on its own, leaving the rest as it was |
| AccessLayer.TodoIndex | apps/web/src/app/api/utils/db.js:117 | the first position with that id, or -1 when none |
| AccessLayer.CheckAccess | apps/web/src/app/api/utils/db.js:132-143 | false for a missing todo; otherwise true exactly when the first todo with that id is personal to the user or in one of the user's groups |
| AccessLayer.UniqueIdFindsTodo | apps/web/src/app/api/utils/db.js:133-143 | when todo ids are unique, the access check of a stored todo's id reads that todo, so it passes exactly when the user may see it |
| AccessLayer.AccessFollowsMembership | apps/web/src/app/api/utils/db.js:139-141 | access to a group todo depends only on whether a membership row for that group and user exists |
| AccessLayer.PersonalTodoIsPrivate | apps/web/src/app/api/utils/db.js:137 | nobody but its author may open a personal todo |
| AccessLayer.NewTodo | apps/web/src/app/api/utils/db.js:100-109 | the todo carries the caller's data, is not completed, and has no group exactly when none or "personal" was given |
| AccessLayer.CreatedTodoIsListed | apps/web/src/app/api/utils/db.js:98-114 | a new personal todo, or one in a group of its creator's, appears on its creator's dashboard |
| AccessLayer.CreatedTodoIsAccessible | apps/web/src/app/api/utils/db.js:132-143 | such a todo with a new id passes its creator's access check |
| AccessLayer.CreateTodo | apps/web/src/app/api/utils/db.js:98-114 | appends the new todo to the store and returns it |
| AccessLayer.ApplyPatch | apps/web/src/app/api/utils/db.js:121 | `{...task, ...data}`: every key sent replaces the old value, every key not sent is kept, identity fields unchanged |
| AccessLayer.UpdatedTodos | apps/web/src/app/api/utils/db.js:115-125 | only the first todo with the id changes, to the merged one; nothing changes when the id is missing |
| AccessLayer.UpdateTwiceIsOnce | apps/web/src/app/api/utils/db.js:115-125 | applying the same patch twice is applying it once |
| AccessLayer.UpdateTodo | apps/web/src/app/api/utils/db.js:115-125 | null and no change for a missing id; otherwise the merged todo, stored in place of the first match |
| AccessLayer.WithoutTodo | apps/web/src/app/api/utils/db.js:128 | exactly the todos with another id, in stored order |
| AccessLayer.DeleteTodoIdempotent | apps/web/src/app/api/utils/db.js:126-131 | deleting twice is deleting once |
| AccessLayer.DeleteTodo | apps/web/src/app/api/utils/db.js:126-131 | removes every todo with the id, touches nothing else, answers true |
| AccessLayer.ListNotes | apps/web/src/app/api/utils/db.js:145-154 | "personal": the user's notes without a group; a group id: that group's notes; no group id: nothing; stored order kept |
| AccessLayer.NewNote | apps/web/src/app/api/utils/db.js:157-163 | the note carries the content and author, with no group exactly when none or "personal" was given |
| AccessLayer.CreatedNoteIsListed | apps/web/src/app/api/utils/db.js:155-168 | a note created with a group id (or "personal") is listed under that id |
| AccessLayer.CreateNote | apps/web/src/app/api/utils/db.js:155-168 | appends the new note and returns it |
| AccessLayer.WithoutNote | apps/web/src/app/api/utils/db.js:171 | exactly the notes with another id, in stored order |
| AccessLayer.DeleteNoteIdempotent | apps/web/src/app/api/utils/db.js:169-174 | deleting twice is deleting once |
| AccessLayer.DeleteNote | apps/web/src/app/api/utils/db.js:169-174 | removes every note with the id, touches nothing else, answers true |
| AccessLayer.DisplayName | apps/web/src/app/api/utils/db.js:184 | the name when it is truthy, else the email |
| AccessLayer.SenderName | apps/web/src/app/api/utils/db.js:183-184 | "Unknown" when no user has the id, otherwise the first such user's display name |
| AccessLayer.GroupMessages | apps/web/src/app/api/utils/db.js:179-184 | exactly the group's messages, each with its sender's name |
| AccessLayer.InsertByTime | apps/web/src/app/api/utils/db.js:185 | inserting adds exactly the one view |
| AccessLayer.InsertByTimeKeepsSorted | apps/web/src/app/api/utils/db.js:185 | inserting into a list sorted by time keeps it sorted |
| AccessLayer.SortByTime | apps/web/src/app/api/utils/db.js:185 | the result is sorted by creation time and a permutation of the input |
| AccessLayer.AtTime | apps/web/src/app/api/utils/db.js:185 | the views with that creation time |
| AccessLayer.InsertByTimeIsStable | apps/web/src/app/api/utils/db.js:185 | the inserted view goes before views with an equal time |
| AccessLayer.SortByTimeIsStable | apps/web/src/app/api/utils/db.js:185 | the sort is stable: views with equal times keep their order |
| AccessLayer.ListMessages | apps/web/src/app/api/utils/db.js:177-186 | the group's messages with sender names, oldest first, equal times in stored order |
| AccessLayer.CreateMessage | apps/web/src/app/api/utils/db.js:187-200 | appends the new message and returns it |
| AccessLayer.SentMessageIsListed | apps/web/src/app/api/utils/db.js:177-200 | a message just sent is in its group's thread |
| MockAdapter.TokenIndex | apps/web/__create/mock-adapter.ts:40 | the first token matching identifier and token, or -1 |
| MockAdapter.CreateVerificationToken | apps/web/__create/mock-adapter.ts:32-37 | appends the token and returns it |
| MockAdapter.UseVerificationToken | apps/web/__create/mock-adapter.ts:38-45 | null and no change when no token matches; otherwise removes exactly the first match and returns it |
| MockAdapter.UsedTokenIsGone | apps/web/__create/mock-adapter.ts:38-45 | with unique tokens, a used token cannot be used again, and uniqueness is kept |
| MockAdapter.CreatedTokenCanBeUsed | apps/web/__create/mock-adapter.ts:32-45 | a new token is found at the position where it was appended |
| MockAdapter.MergeUser | apps/web/__create/mock-adapter.ts:76 | `{...user, ...patch}`: keys sent replace, keys not sent are kept |
| MockAdapter.NewUser | apps/web/__create/mock-adapter.ts:48 | the fresh id unless the data carries one; name, email, emailVerified and image from the data, null where it has none |
| MockAdapter.CreateUser | apps/web/__create/mock-adapter.ts:46-52 | appends the new user and returns it |
| MockAdapter.GetUser | apps/web/__create/mock-adapter.ts:53-56 | null exactly when no user has the id, otherwise the first stored user with it |
| MockAdapter.CreatedUserIsFound | apps/web/__create/mock-adapter.ts:46-56 | a created user with a new id is found by that id |
| MockAdapter.GetUserByEmail | apps/web/__create/mock-adapter.ts:57-64 | null exactly when no user has the email, otherwise the first user with it, with all of that user's accounts |
| MockAdapter.AccountIndex | apps/web/__create/mock-adapter.ts:67 | the position of the first account with that provider account id and provider, or -1 exactly when there is none |
| MockAdapter.GetUserByAccount | apps/web/__create/mock-adapter.ts:65-70 | null when no account matches; otherwise exactly what `getUser` gives for the first matching account's user id |
| MockAdapter.LinkedAccountFindsUser | apps/web/__create/mock-adapter.ts:65-85 | after linking a new provider account, looking it up gives the account's user |
| MockAdapter.UserIndex | apps/web/__create/mock-adapter.ts:73 | the first position with that id, or -1 |
| MockAdapter.UpdateTarget | apps/web/__create/mock-adapter.ts:73 | an update without an id matches no user (`u.id === undefined`) |
| MockAdapter.UpdateUser | apps/web/__create/mock-adapter.ts:71-79 | "User not found" and no change when no user matches; otherwise the merged user, stored in place of the first match |
| MockAdapter.LinkAccount | apps/web/__create/mock-adapter.ts:80-85 | appends the account and returns it |
| MockAdapter.CreateSession | apps/web/__create/mock-adapter.ts:86-91 | appends the session and returns it |
| MockAdapter.GetSessionAndUser | apps/web/__create/mock-adapter.ts:92-102 | null for a falsy or unknown token; for a stored token, the first session with it together with its user, or null when that user is missing |
| MockAdapter.MergeSession | apps/web/__create/mock-adapter.ts:108 | the token kept, the user id and expiry replaced when sent |
| MockAdapter.SessionIndex | apps/web/__create/mock-adapter.ts:105 | the first session with the token, or -1 |
| MockAdapter.UpdateSession | apps/web/__create/mock-adapter.ts:103-111 | null and no change for an unknown token; otherwise the merged session, stored in place of the first match |
| MockAdapter.WithoutSession | apps/web/__create/mock-adapter.ts:114 | exactly the sessions with another token; the kept sessions in stored order |
| MockAdapter.DeleteSession | apps/web/__create/mock-adapter.ts:112-116 | removes every session with the token, nothing else |
| MockAdapter.DeletedSessionIsGone | apps/web/__create/mock-adapter.ts:92-116 | a deleted session no longer resolves |
| MockAdapter.WithoutAccount | apps/web/__create/mock-adapter.ts:119 | exactly the accounts other than the given provider account; the kept accounts in stored order |
| MockAdapter.UnlinkAccount | apps/web/__create/mock-adapter.ts:117-121 | removes that provider account, nothing else |
| MockAdapter.UnlinkedAccountFindsNobody | apps/web/__create/mock-adapter.ts:65-121 | an unlinked provider account finds no user |
| MockAdapter.WithoutUser | apps/web/__create/mock-adapter.ts:122-128 | the user, their sessions and their accounts are gone; every other record and collection is unchanged; the kept users, sessions and accounts in stored order |
| MockAdapter.DeleteUser | apps/web/__create/mock-adapter.ts:122-128 | the store becomes the one without the user |
| MockAdapter.DeleteUserKeepsOwners | apps/web/__create/mock-adapter.ts:122-128 | if every session and account has its user, that stays true after deleting a user |
| MockAdapter.DeletedUserIsSignedOut | apps/web/__create/mock-adapter.ts:92-128 | no session token resolves to a deleted user |
| MockSql.At | apps/web/src/app/api/utils/sql.js:61-62 | `values[i]`, undefined when out of range |
| MockSql.UpperNeverStartsWith | apps/web/src/app/api/utils/sql.js:42 | an upper-cased command never starts with a pattern containing a lower-case letter |
| MockSql.StartsDiffer | apps/web/src/app/api/utils/sql.js:46 | a command that starts with one keyword does not start with a keyword of another first letter |
| MockSql.ClassifyAsWritten | apps/web/src/app/api/utils/sql.js:42-221 | the statement kind as the source decides it: `SELECT`, `INSERT`, then the group-creating, UPDATE and DELETE patterns with their lower-case letters, compared with the upper-cased command |
| MockSql.Classify | apps/web/src/app/api/utils/sql.js:42-221 | the corrected kind: the same order, with the three patterns upper-cased like the command |
| MockSql.AsWrittenOnlySelectsAndInserts | apps/web/src/app/api/utils/sql.js:42-228 | as written, no statement reaches the group-creating, UPDATE or DELETE branch |
| MockSql.TrimKeepsKeyword | apps/web/src/app/api/utils/sql.js:42 | trimming a statement keeps the keyword it starts with |
| MockSql.UpperKeepsPrefix | apps/web/src/app/api/utils/sql.js:42 | upper-casing keeps a prefix, upper-cased |
| MockSql.CommandStartsWith | apps/web/src/app/api/utils/sql.js:42 | the command of a statement starts with its keyword, upper-cased |
| MockSql.CommandFirst | apps/web/src/app/api/utils/sql.js:42 | the command's first letter is its keyword's first letter, upper-cased |
| MockSql.AsWrittenUnrecognised | apps/web/src/app/api/utils/sql.js:46-228 | as written, a command starting with neither S nor I falls through to `return []` |
| MockSql.DeleteIsIgnoredAsWritten | apps/web/src/app/api/utils/sql.js:221 | as written, a `DELETE FROM todos` statement is not recognised |
| MockSql.DeleteIsRecognised | apps/web/src/app/api/utils/sql.js:221 | with the corrected patterns it is recognised as a delete |
| MockSql.CteIsIgnoredAsWritten | apps/web/src/app/api/utils/sql.js:113-120 | as written, the group-creating `WITH new_group AS` statement is not recognised |
| MockSql.CteIsRecognised | apps/web/src/app/api/utils/sql.js:113-120 | with the corrected patterns it is recognised |
| MockSql.SelectTable | apps/web/src/app/api/utils/sql.js:50-54 | for each table, exactly when its `FROM` clause is present and no clause checked after it is: users over todos over memberships over groups; no table when none is present |
| MockSql.MemberRows | apps/web/src/app/api/utils/sql.js:60-68 | without a truthy group value all rows; with one, the rows loosely equal to it, and also to the user value when that is truthy; stored order kept |
| MockSql.GroupIdsOf | apps/web/src/app/api/utils/sql.js:73-74 | a group id is listed exactly when some membership row loosely names the user in that group |
| MockSql.GroupRows | apps/web/src/app/api/utils/sql.js:71-76 | with the membership join, the stored groups whose id is among the user's membership group ids; otherwise every group (see `MockSql.JoinedGroupsAreMemberGroups`) |
| MockSql.ScopeOf | apps/web/src/app/api/utils/sql.js:81-96 | which todos filter applies: the group, personal and dashboard patterns, the first one present deciding, and none otherwise |
| MockSql.TodoRows | apps/web/src/app/api/utils/sql.js:79-96 | a subsequence of the stored todos; per scope, a todo is returned exactly when it is in the group, is the user's personal todo, is in one of the user's groups or personal (dashboard), or always (no WHERE) |
| MockSql.Joined | apps/web/src/app/api/utils/sql.js:99-102 | each todo in order, with its group's name |
| MockSql.SelectRows | apps/web/src/app/api/utils/sql.js:50-103 | the rows of the chosen table: users, filtered memberships, groups, or the scoped todos joined with group names; none without a table |
| MockSql.SelectResult | apps/web/src/app/api/utils/sql.js:105-109 | with `LIMIT 1` only the first row, when there is one; otherwise every row |
| MockSql.JoinedGroupsAreMemberGroups | apps/web/src/app/api/utils/sql.js:71-76 | the groups-join SELECT for a user returns what `db.groups.findMemberGroups` returns |
| MockSql.DashboardSelectIsDashboardList | apps/web/src/app/api/utils/sql.js:91-102 | the dashboard SELECT returns, row for row, the dashboard `db.todos.list` returns |
| MockSql.InsertTable | apps/web/src/app/api/utils/sql.js:114-117 | for each table, exactly when its `INTO` clause is present and no clause checked after it is: memberships over todos over groups; no table when none is present |
| MockSql.NewItem | apps/web/src/app/api/utils/sql.js:147-179 | the new item has a fresh id and time; a group takes name and creator from the first two values, a todo takes group, title, creator, due date and assignees from the five values and starts not completed |
| MockSql.MemberExists | apps/web/src/app/api/utils/sql.js:174 | some membership row loosely matches both values |
| MockSql.AfterInsert | apps/web/src/app/api/utils/sql.js:147-182 | a group or todo INSERT appends exactly the new item to its table; a membership is appended unless one already links the two values; an INSERT of unknown table stores nothing |
| MockSql.MemberInsertIsIdempotent | apps/web/src/app/api/utils/sql.js:169-179 | inserting a membership twice stores it once |
| MockSql.CteGroup | apps/web/src/app/api/utils/sql.js:121-128 | the group the group-creating statement builds from the name and the user id (see `MockSql.CteIsCreateGroup`) |
| MockSql.AfterCte | apps/web/src/app/api/utils/sql.js:130-142 | the store with that group and its creator's membership appended (see `MockSql.CteIsCreateGroup`) |
| MockSql.CteIsCreateGroup | apps/web/src/app/api/utils/sql.js:120-145 | the group-creating statement changes the store as `db.groups.create` does |
| MockSql.AfterDelete | apps/web/src/app/api/utils/sql.js:221-226 | only todos change: exactly those whose id is loosely unequal to the value are kept |
| MockSql.DeleteIsDeleteTodo | apps/web/src/app/api/utils/sql.js:221-226 | for a string id, the delete statement removes what `db.todos.delete` removes |
| MockSql.Step | apps/web/src/app/api/utils/sql.js:41-229 | SELECT, UPDATE and unrecognised statements leave the store alone; UPDATE and unrecognised ones return no rows; an INSERT returns the new item even when it stores nothing, the group-creating statement the new group, DELETE the acknowledgement |
| MockSql.DeleteIsLostAsWritten | apps/web/src/app/api/utils/sql.js:221-228 | as written, a delete statement returns nothing and deletes nothing |
| MockSql.CteIsLostAsWritten | apps/web/src/app/api/utils/sql.js:113-145 | as written, the group-creating statement returns nothing and creates nothing |
| MockSql.CteCreatesGroup | apps/web/src/app/api/utils/sql.js:113-145 | corrected, it answers the new group and stores the group and its creator's membership as `db.groups.create` does |
| MockSql.DeleteRemovesTodo | apps/web/src/app/api/utils/sql.js:221-226 | corrected, it acknowledges and removes the todos with the id |
| MockSql.Run | apps/web/src/app/api/utils/sql.js:41-229 | the rows returned and the store left are those of the statement's step |
| MockSql.ExecuteAsWritten | apps/web/src/app/api/utils/sql.js:41-229 | runs the statement as the source classifies it; no statement then removes a todo |
| MockSql.AsWrittenNeverRemovesTodos | apps/web/src/app/api/utils/sql.js:42-228 | as written, every stored todo survives every statement |
| MockSql.Execute | apps/web/src/app/api/utils/sql.js:41-229 | runs the statement as the corrected classification reads it |
| MockSql.Transaction | apps/web/src/app/api/utils/sql.js:232-241 | the results of the queued statements, in order |
| Http.InMemberGroups | apps/web/src/app/api/todos/route.js:19-20 | the group is among the user's member groups (see `Http.InMemberGroupsIsMembership`) |
| Http.InMemberGroupsIsMembership | apps/web/src/app/api/todos/route.js:18-23 | the routes' group check passes exactly when the user has a membership row and the group exists |
| GroupsRoute.Get | apps/web/src/app/api/groups/route.js:4-19 | 401 when not signed in; otherwise 200 with exactly the list `db.groups.findMemberGroups` gives, order included, which holds exactly the user's stored groups |
| GroupsRoute.ValidName | apps/web/src/app/api/groups/route.js:32 | a name is accepted when it is a non-empty string that is not all white space (see `GroupsRoute.BlankNamesAreRejected`) |
| GroupsRoute.ValidNameIsStoredTrimmed | apps/web/src/app/api/groups/route.js:32-39 | an accepted name is stored non-empty and trimmed |
| GroupsRoute.BlankNamesAreRejected | apps/web/src/app/api/groups/route.js:32-37 | a string name is accepted exactly when it has a non-space character |
| GroupsRoute.Post | apps/web/src/app/api/groups/route.js:21-46 | 401 or 400 without touching the store; otherwise 201 with the group under the trimmed name, and the creator's group list grows by it |
| TodosRoute.Refused | apps/web/src/app/api/todos/route.js:18-20 | a group (not "personal", not empty) is named and it is not among the user's member groups |
| TodosRoute.Get | apps/web/src/app/api/todos/route.js:4-31 | 401 when not signed in; 403 exactly when a named group is not one of the user's; otherwise 200 with the listing of that scope |
| TodosRoute.ListedTodosAreVisible | apps/web/src/app/api/todos/route.js:4-31 | every todo a 200 response returns is stored and visible to the user (personal to the user, or in a group the user belongs to), except in the empty-group-id corner |
| TodosRoute.ListedTodosPassAccessCheck | apps/web/src/app/api/todos/route.js:4-31 | with unique todo ids, every todo a 200 response returns passes `todos.checkAccess`, except in the empty-group-id corner |
| TodosRoute.DashboardShowsEveryVisibleTodo | apps/web/src/app/api/todos/route.js:25-26 | every stored todo the user may open is on the dashboard |
| TodosRoute.Post | apps/web/src/app/api/todos/route.js:33-74 | 401, 400 without a title, 403 outside the user's groups, with the store untouched; otherwise 201 with the new todo assigned to the given array or the user, listed on the creator's dashboard and, with a new id, open to the creator |
| NotesRoute.Refused | apps/web/src/app/api/notes/route.js:17-20 | a group (not "personal", not empty) is named and it is not among the user's member groups |
| NotesRoute.MayRead | apps/web/src/app/api/notes/route.js:17-28 | a note is readable by its group's members, or by its author when it has no group (see `NotesRoute.ListedNotesAreReadable`) |
| NotesRoute.Get | apps/web/src/app/api/notes/route.js:4-35 | 401 when not signed in; 403 exactly when a named group is not one of the user's; otherwise 200 with the notes of that scope |
| NotesRoute.ListedNotesAreReadable | apps/web/src/app/api/notes/route.js:4-35 | a 200 response returns only stored notes of the user's groups or the user's own personal notes, and nothing without a group id |
| NotesRoute.Post | apps/web/src/app/api/notes/route.js:37-73 | 401, 400 without content, 403 outside the user's groups, with the store untouched; otherwise 201 with the new note, readable by its author and listed in its scope |
| UserSearchRoute.Get | apps/web/src/app/api/users/search/route.js:4-28 | 401 when not signed in; 400 without a query; otherwise 200 with exactly the list `db.users.search` gives, order included, which holds exactly the users whose email contains it, ignoring case |
| UserSearchRoute.SearchIgnoresCase | apps/web/src/app/api/users/search/route.js:21-23 | queries that differ only in case get the same response |

## Findings

| source | as written | input that shows it | evidently intended | confidence | as-written member | corrected member |
|---|---|---|---|---|---|---|
| apps/web/src/app/api/utils/sql.js:42 and 221 | the command is upper-cased (line 42) and then compared with `'DELETE FROM todos'`, which has lower-case letters, so the DELETE branch is unreachable and the statement falls through to `return []` | the statement ``sql`DELETE FROM todos WHERE id = ${id}` `` with any id | delete the todo and answer `[{ success: true }]` | not executed | MockSql.DeleteIsLostAsWritten | MockSql.DeleteRemovesTodo |
| apps/web/src/app/api/utils/sql.js:42, 113 and 120 | the group-creating statement is compared with `'WITH new_group AS'` after upper-casing, so it is never recognised and creates nothing | the statement `WITH new_group AS (INSERT INTO groups …` with a name and a user id | create the group and its creator's membership | not executed | MockSql.CteIsLostAsWritten | MockSql.CteCreatesGroup |

`MockSql.ClassifyAsWritten` reads the command as the source does.
`MockSql.AsWrittenOnlySelectsAndInserts` proves that only SELECT, INSERT or nothing is reachable.
`MockSql.Classify` upper-cases the patterns too, and `MockSql.Execute` uses it. The same
mismatch makes `'UPDATE todos'` (line 186) unreachable, but the UPDATE branch does nothing
either way: an UPDATE returns no rows and changes nothing, as written and corrected.

## Left out

- Reading and writing the file is left out: JSON parsing, the defaults used when the file is missing or unreadable, and the `|| []` defaults for absent collections. The model's store always has all nine collections.
- Concurrency is left out: each operation reads, changes and writes the whole file, and two requests running at once can lose an update. The model treats each operation as atomic.
- The 500 responses of the routes' `catch` blocks are left out. They cover failures of I/O and of `request.json()`, which the model does not have.
- Id generation (`Math.random`, `crypto.randomUUID`) and the clock are left out; callers pass them in as `Stamp` values. The model does not assume ids are unique; lemmas that need a new id ask for one.
- Timestamps are left out as ISO strings: they are integers. Invalid dates (`NaN` in the message sort) are not modelled.
- `auth()` and the session cookie are left out: the signed-in user's id is a parameter.
- `Text.ToUpper`, `Text.ToLower`: only ASCII letters change case. JavaScript also maps other Unicode letters, and some of its mappings change a string's length.
- Request-body values of unexpected JSON types are left out, such as a number as a todo title or a group id, or an array of numbers as assignees. Titles, contents, due dates and group ids are `Option<string>`, and arrays are arrays of strings.
- A membership row whose group id is null is left out: `Member.group_id` is a string. In the source, the dashboard filter (`memberGroups.includes(t.group_id)`, sql.js:95, and db.js:92) would then match every todo whose group id is null, listing other users' personal todos.
- `MockSql` parameters are null, strings or string arrays. Numbers are left out, and loose equality between an array and a string is taken to be false. A value of the wrong type written into a column is stored as "", null or [].
- `MockSql.Transaction` takes the statements' results. JavaScript awaits already-running promises, and their order of effects is left out.
- The UPDATE branch of `sql.js` does nothing (its body is commented out), and the model keeps it that way.
