/** The /api/users collection route: a process-wide list of user records, seeded
    at start-up, read by GET and appended to in place by POST. */
module UsersRoute {
  import opened UserModel
  import opened UserHistory

  class UserStore {
    /** The records, in insertion order (the module-level `mockUsers` array). */
    var users: seq<User>
    /** Every POST body this store has handled, oldest first. */
    ghost var requests: seq<Option<Body>>

    /** The list is the seed followed by the effect of every POST so far. */
    ghost predicate Valid()
      reads this
    {
      users == Replay(Seed(), requests)
    }

    /** The list as the server starts: the three seed records. */
    constructor ()
      ensures Valid()
      ensures users == Seed() && requests == []
    {
      users := Seed();
      requests := [];
    }

    /** GET /api/users: the whole list, its length and the success tag, with status 200.
        The list itself is not changed. */
    method Get() returns (r: Response)
      requires Valid()
      ensures r.code == 200
      ensures r.payload.UserList? && r.payload.users == users
      ensures r.payload.total == |r.payload.users| && r.payload.status == Success
      ensures forall i :: 0 <= i < |r.payload.users| ==> r.payload.users[i].id == i + 1
    {
      SeededIdsUnique(requests);
      r := Response(200, UserList(users, |users|, Success));
    }

    /** POST /api/users with the parsed body `request` (None when parsing failed). */
    method Post(request: Option<Body>) returns (r: Response)
      requires Valid()
      modifies this
      ensures Valid() && requests == old(requests) + [request]
      ensures r == HandlePost(old(users), request).response
      ensures users == HandlePost(old(users), request).users
      ensures IdsArePositions(users)
    {
      var outcome := HandlePost(users, request);
      assert Init(requests + [request]) == requests && Last(requests + [request]) == request;
      users := outcome.users;
      requests := requests + [request];
      SeededIdsUnique(requests);
      r := outcome.response;
    }
  }

  /** The start-up scenario: a POST of a name and an email alone to the seeded list
      returns status 201 and a record with id 4 and role "user", and a following
      GET reports a total of 4. */
  method SeededScenario() returns (created: Response, listed: Response)
    ensures created.code == 201 && created.payload.UserCreated?
    ensures created.payload.user == User(4, "Zhou Liu", "zl@example.com", DefaultRole)
    ensures listed.code == 200 && listed.payload.UserList? && listed.payload.total == 4
  {
    var store := new UserStore();
    created := store.Post(Some(Body(Some("Zhou Liu"), Some("zl@example.com"), None)));
    listed := store.Get();
  }
}
