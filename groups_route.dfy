/** `GET` and `POST /api/groups`: the signed-in user's groups, and creating a group. */
module GroupsRoute {
  import opened Wrappers
  import opened Text
  import opened Records
  import opened LocalStore
  import opened Http
  import AccessLayer

  /** `GET`: the groups the user belongs to. */
  function Get(s: Snapshot, userId: Option<string>): (r: Response)
    ensures !SignedIn(userId) ==> r == Unauthorized
    ensures SignedIn(userId) ==> r.status == 200 && r.body.GroupList?
    ensures r.status == 200 ==> forall g :: g in r.body.groups <==> g in s.groups && AccessLayer.IsMember(s, g.id, userId.value)
    ensures r.status == 200 ==> r.body == GroupList(AccessLayer.FindMemberGroups(s, userId.value))
  {
    if !SignedIn(userId) then Unauthorized
    else Response(200, GroupList(AccessLayer.FindMemberGroups(s, userId.value)))
  }

  /** `!name || typeof name !== "string" || name.trim().length === 0` fails. */
  predicate ValidName(name: Json) {
    JsonTruthy(name) && name.Str? && Trim(name.s) != ""
  }

  /** A name that passes the check is stored trimmed and non-empty. */
  lemma ValidNameIsStoredTrimmed(name: Json)
    requires ValidName(name)
    ensures var n := Trim(name.s); n != "" && Trim(n) == n && !IsSpace(n[0]) && !IsSpace(n[|n| - 1])
  {
    TrimIdempotent(name.s);
  }

  /** Only white space makes a string name invalid. */
  lemma BlankNamesAreRejected(name: string)
    ensures ValidName(Json.Str(name)) <==> exists i :: 0 <= i < |name| && !IsSpace(name[i])
  {
    TrimEmptyIffAllSpace(name);
  }

  /** `POST`: creates the group named by the trimmed name, with the user as its creator and first member. */
  method Post(db: LocalDb, userId: Option<string>, name: Json, group: Stamp, member: Stamp) returns (r: Response)
    modifies db
    ensures !SignedIn(userId) ==> r == Unauthorized && db.Read() == old(db.Read())
    ensures SignedIn(userId) && !ValidName(name) ==>
      r == Response(400, Error("Group name is required")) && db.Read() == old(db.Read())
    ensures SignedIn(userId) && ValidName(name) ==>
      var g := Group(group.id, Trim(name.s), userId.value, group.at);
      r == Response(201, GroupCreated(g))
      && db.Read() == old(db.Read()).(groups := old(db.groups) + [g],
                                      group_members := old(db.group_members) + [AccessLayer.CreatorMembership(g, member)])
    ensures r.status == 201 && AccessLayer.FreshGroupId(old(db.Read()), group.id) ==>
      AccessLayer.FindMemberGroups(db.Read(), userId.value)
        == AccessLayer.FindMemberGroups(old(db.Read()), userId.value) + [r.body.group]
  {
    if !SignedIn(userId) {
      return Unauthorized;
    }
    if !ValidName(name) {
      return Response(400, Error("Group name is required"));
    }
    var g := AccessLayer.CreateGroup(db, Trim(name.s), userId.value, group, member);
    r := Response(201, GroupCreated(g));
  }
}
