/** `GET /api/users/search?email=…`: looking users up by part of their email address. */
module UserSearchRoute {
  import opened Wrappers
  import opened Text
  import opened Records
  import opened LocalStore
  import opened Http
  import AccessLayer

  /** `GET`: every user whose email contains the query, ignoring case; a missing or empty query is refused. */
  function Get(s: Snapshot, userId: Option<string>, email: Option<string>): (r: Response)
    ensures !SignedIn(userId) ==> r == Unauthorized
    ensures SignedIn(userId) && !Truthy(email) ==> r == Response(400, Error("Email query is required"))
    ensures SignedIn(userId) && Truthy(email) ==> r.status == 200 && r.body.UserList?
    ensures r.status == 200 ==>
      forall u :: u in r.body.users <==> u in s.users && AccessLayer.EmailMatches(u, email.value)
    ensures r.status == 200 ==> r.body == UserList(AccessLayer.SearchUsers(s, email.value))
  {
    if !SignedIn(userId) then Unauthorized
    else if !Truthy(email) then Response(400, Error("Email query is required"))
    else Response(200, UserList(AccessLayer.SearchUsers(s, email.value)))
  }

  /** Two queries that differ only in letter case get the same answer. */
  lemma SearchIgnoresCase(s: Snapshot, userId: Option<string>, q1: string, q2: string)
    requires ToLower(q1) == ToLower(q2)
    ensures Get(s, userId, Some(q1)) == Get(s, userId, Some(q2))
  {
    if q1 != "" && q2 != "" {
      AccessLayer.SearchIgnoresQueryCase(s, q1, q2);
    }
  }
}
