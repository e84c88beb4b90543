/** `GET` and `POST /api/notes`: listing the notes of a scope, and creating a note. */
module NotesRoute {
  import opened Wrappers
  import opened Records
  import opened LocalStore
  import opened Http
  import AccessLayer

  /** The membership check both handlers make before touching a group's notes. */
  predicate Refused(s: Snapshot, userId: string, groupId: Option<string>) {
    NamesGroup(groupId) && !InMemberGroups(s, userId, groupId.value)
  }

  /** Who may read a note: the members of its group, or its author when it has none. */
  predicate MayRead(s: Snapshot, userId: string, n: Note) {
    if Truthy(n.group_id) then AccessLayer.IsMember(s, n.group_id.value, userId) else n.created_by == userId
  }

  /** `GET ?groupId=…`: the notes of that scope, once the user is known to belong to the group it names. */
  function Get(s: Snapshot, userId: Option<string>, groupId: Option<string>): (r: Response)
    ensures !SignedIn(userId) ==> r == Unauthorized
    ensures SignedIn(userId) ==> (r == NotAMember <==> Refused(s, userId.value, groupId))
    ensures r.status == 200 <==> SignedIn(userId) && !Refused(s, userId.value, groupId)
    ensures r.status == 200 ==> r.body == NoteList(AccessLayer.ListNotes(s, userId.value, groupId))
  {
    if !SignedIn(userId) then Unauthorized
    else if Refused(s, userId.value, groupId) then NotAMember
    else Response(200, NoteList(AccessLayer.ListNotes(s, userId.value, groupId)))
  }

  /** A successful `GET` returns only notes the user may read, and nothing at all without a group id. */
  lemma {:induction false} ListedNotesAreReadable(s: Snapshot, userId: Option<string>, groupId: Option<string>)
    requires Get(s, userId, groupId).status == 200
    ensures forall n :: n in Get(s, userId, groupId).body.notes ==> n in s.notes && MayRead(s, userId.value, n)
    ensures !Truthy(groupId) ==> Get(s, userId, groupId).body.notes == []
  {
    if NamesGroup(groupId) {
      InMemberGroupsIsMembership(s, userId.value, groupId.value);
    }
  }

  /** `POST`: the content is required, the group (if one is named) must be the user's, and the note is stored. */
  method Post(db: LocalDb, userId: Option<string>, groupId: Option<string>, content: Option<string>, stamp: Stamp)
    returns (r: Response)
    modifies db
    ensures !SignedIn(userId) ==> r == Unauthorized
    ensures SignedIn(userId) && !Truthy(content) ==> r == Response(400, Error("Content is required"))
    ensures SignedIn(userId) && Truthy(content) ==> (r == NotAMember <==> Refused(old(db.Read()), userId.value, groupId))
    ensures r.status != 201 ==> db.Read() == old(db.Read())
    ensures r.status == 201 <==> SignedIn(userId) && Truthy(content) && !Refused(old(db.Read()), userId.value, groupId)
    ensures r.status == 201 ==>
      r.body == NoteCreated(AccessLayer.NewNote(userId.value, content.value, groupId, stamp))
      && db.Read() == old(db.Read()).(notes := old(db.notes) + [r.body.note])
    ensures r.status == 201 ==>
      MayRead(db.Read(), userId.value, r.body.note)
      && r.body.note in AccessLayer.ListNotes(db.Read(), userId.value, if NamesGroup(groupId) then groupId else Some("personal"))
  {
    if !SignedIn(userId) {
      return Unauthorized;
    }
    if !Truthy(content) {
      return Response(400, Error("Content is required"));
    }
    var s := db.Read();
    if Refused(s, userId.value, groupId) {
      return NotAMember;
    }
    if NamesGroup(groupId) {
      InMemberGroupsIsMembership(s, userId.value, groupId.value);
    }
    var n := AccessLayer.CreateNote(db, userId.value, content.value, groupId, stamp);
    assert n in db.notes;
    r := Response(201, NoteCreated(n));
  }
}
