/** The list of records after a whole history of POSTs, applied in arrival order,
    and what holds of it whatever the history was. */
module UserHistory {
  import opened UserModel

  /** The list after the POSTs `requests`, in order, starting from `users`. */
  function Replay(users: seq<User>, requests: seq<Option<Body>>): (r: seq<User>)
    decreases |requests|
  {
    if requests == [] then users
    else HandlePost(Replay(users, Init(requests)), Last(requests)).users
  }

  function Init<T>(s: seq<T>): (r: seq<T>)
    requires s != []
  {
    s[..|s| - 1]
  }

  function Last<T>(s: seq<T>): (r: T)
    requires s != []
  {
    s[|s| - 1]
  }

  /** Whether a POST with this body is accepted (status 201). */
  predicate IsAccepted(request: Option<Body>)
  {
    request.Some? && HasRequiredFields(request.value)
  }

  /** The number of requests in `requests` that are accepted. */
  function Accepted(requests: seq<Option<Body>>): (n: nat)
    ensures n <= |requests|
    ensures n == 0 <==> forall k :: 0 <= k < |requests| ==> !IsAccepted(requests[k])
  {
    if requests == [] then 0
    else Accepted(Init(requests)) + (if IsAccepted(Last(requests)) then 1 else 0)
  }

  /** Every accepted POST adds exactly one record; nothing else adds or removes any. */
  lemma {:induction false} ReplayLength(users: seq<User>, requests: seq<Option<Body>>)
    ensures |Replay(users, requests)| == |users| + Accepted(requests)
  {
    if requests != [] {
      ReplayLength(users, Init(requests));
    }
  }

  /** Records already stored are never changed or moved by later POSTs. */
  lemma {:induction false} ReplayKeepsEarlier(users: seq<User>, requests: seq<Option<Body>>)
    ensures |users| <= |Replay(users, requests)|
    ensures Replay(users, requests)[..|users|] == users
  {
    if requests != [] {
      var before := Replay(users, Init(requests));
      ReplayKeepsEarlier(users, Init(requests));
      var after := HandlePost(before, Last(requests)).users;
      assert after[..|before|] == before;
      assert after[..|users|] == before[..|users|];
    }
  }

  /** Whatever the POSTs, the id rule the list starts with is never broken. */
  lemma {:induction false} ReplayKeepsIdsPositional(users: seq<User>, requests: seq<Option<Body>>)
    requires IdsArePositions(users)
    ensures IdsArePositions(Replay(users, requests))
  {
    if requests != [] {
      ReplayKeepsIdsPositional(users, Init(requests));
    }
  }

  /** Applying two histories one after the other is applying their concatenation. */
  lemma {:induction false} ReplayConcat(users: seq<User>, first: seq<Option<Body>>, second: seq<Option<Body>>)
    ensures Replay(users, first + second) == Replay(Replay(users, first), second)
  {
    if second == [] {
      assert first + second == first;
    } else {
      assert Init(first + second) == first + Init(second);
      assert Last(first + second) == Last(second);
      ReplayConcat(users, first, Init(second));
    }
  }

  /** From the seed, after any history of POSTs, the record at index i has id i + 1,
      so ids strictly increase along the list and no two records share one. */
  lemma SeededIdsUnique(requests: seq<Option<Body>>)
    ensures IdsArePositions(Replay(Seed(), requests))
    ensures var users := Replay(Seed(), requests);
            forall i, j :: 0 <= i < j < |users| ==> users[i].id < users[j].id
  {
    ReplayKeepsIdsPositional(Seed(), requests);
    PositionalIdsAreIncreasing(Replay(Seed(), requests));
  }

  /** The list after the first k + 1 requests is the k-th request handled
      against the list after the first k. */
  lemma ReplayStep(users: seq<User>, requests: seq<Option<Body>>, k: nat)
    requires k < |requests|
    ensures Replay(users, requests[..k + 1]) == HandlePost(Replay(users, requests[..k]), requests[k]).users
  {
    assert Init(requests[..k + 1]) == requests[..k];
  }

  /** The list after all requests extends the list after the first k + 1. */
  lemma ReplayExtendsPrefix(users: seq<User>, requests: seq<Option<Body>>, k: nat)
    requires k < |requests|
    ensures var after := Replay(users, requests[..k + 1]);
            var now := Replay(users, requests);
            |after| <= |now| && now[..|after|] == after
  {
    ReplayConcat(users, requests[..k + 1], requests[k + 1..]);
    assert requests[..k + 1] + requests[k + 1..] == requests;
    ReplayKeepsEarlier(Replay(users, requests[..k + 1]), requests[k + 1..]);
  }

  /** The record an accepted POST returns stays in the list, at index id - 1,
      whatever POSTs follow it. */
  lemma CreatedUserStays(users: seq<User>, requests: seq<Option<Body>>, k: nat)
    requires k < |requests| && IsAccepted(requests[k])
    ensures var created := HandlePost(Replay(users, requests[..k]), requests[k]).response.payload.user;
            var now := Replay(users, requests);
            1 <= created.id <= |now| && now[created.id - 1] == created
  {
    var before := Replay(users, requests[..k]);
    var created := HandlePost(before, requests[k]).response.payload.user;
    var after := Replay(users, requests[..k + 1]);
    var now := Replay(users, requests);
    ReplayStep(users, requests, k);
    ReplayExtendsPrefix(users, requests, k);
    assert after[created.id - 1] == created;
    assert now[created.id - 1] == now[..|after|][created.id - 1];
  }

  /** The ids that successive accepted POSTs return strictly increase. */
  lemma ReturnedIdsIncrease(users: seq<User>, requests: seq<Option<Body>>, k: nat, m: nat)
    requires k < m < |requests|
    requires IsAccepted(requests[k]) && IsAccepted(requests[m])
    ensures HandlePost(Replay(users, requests[..k]), requests[k]).response.payload.user.id <
            HandlePost(Replay(users, requests[..m]), requests[m]).response.payload.user.id
  {
    var afterK := Replay(users, requests[..k + 1]);
    assert Init(requests[..k + 1]) == requests[..k];
    ReplayConcat(users, requests[..k + 1], requests[k + 1..m]);
    assert requests[..k + 1] + requests[k + 1..m] == requests[..m];
    ReplayKeepsEarlier(afterK, requests[k + 1..m]);
  }
}
