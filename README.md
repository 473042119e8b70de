# The /api/users collection route, modelled in Dafny

The route `app/api/users/route.ts` keeps the users of a demonstration service in
one process-wide array, seeded at start-up with three records whose ids are 1, 2
and 3. `GET` returns the whole array, its length and `status: 'success'`. `POST`
reads a JSON body and checks it:

- a body that cannot be parsed gives status 500 with error `服务器错误`;
- a body whose `name` or `email` is missing or empty gives status 400 with
  error `姓名和邮箱是必需的`;
- otherwise it builds a record with id `length + 1`, the supplied name and email,
  and role `body.role || 'user'`. It appends the record in place and returns it
  with status 201, message `用户创建成功` and `status: 'success'`.

The model has three modules:

- `UserModel` (`user_model.dfy`) holds the records, the request body, the
  responses and the seed. It also holds `HandlePost`, a function giving the
  meaning of one POST: the response and the list it leaves behind.
- `UserHistory` (`user_history.dfy`) holds `Replay`, the list after a whole
  history of POSTs. Its lemmas hold for every history.
- `UsersRoute` (`users_route.dfy`) holds the class `UserStore`. Its `users`
  field is the mutable array. The constructor seeds it, `Get` reads it and
  `Post` replaces it with what `HandlePost` gives. A ghost field records every
  POST body handled so far. The class invariant says that the list is the seed
  followed by the effect of those POSTs.

The key invariant is the id rule: the record at index i has id i + 1. The
seed satisfies it, every POST preserves it, and so it holds after any history.
Ids therefore strictly increase along the list and are never shared.

A parsed body is `Option<Body>`. `None` stands for a body that `request.json()`
rejects. It also stands for the JSON value `null`, because reading `body.name`
on it throws and the handler answers 500. Each field of `Body` is
`Option<string>`. A field is "present" when it is `Some` of a non-empty string,
which is JavaScript truthiness for strings. A JSON array, number or string
parses to a body with no fields, and the handler answers 400.

Ids are `length + 1`, not the largest id + 1. The messages are the Chinese
strings the route returns.

## Model

| member | source | states |
|---|---|---|
| UserModel.Seed | app/api/users/route.ts:4-8 | the three seed records have ids 1, 2 and 3, so the record at index i has id i + 1, and each has a non-empty name, email and role |
| UserModel.RoleOf | app/api/users/route.ts:38 | a new record's role is the supplied role when present and non-empty, `user` otherwise; it is never empty |
| UserModel.HandlePost | app/api/users/route.ts:21-55 | unparsable body: 500 with `服务器错误`, list unchanged. Missing or empty name or email: 400 with `姓名和邮箱是必需的`, list unchanged. Status 201 exactly when both fields are present. Then one record is appended at the end and earlier records are untouched. The new record has id old length + 1, the supplied name and email and the defaulted role. The response carries that same record, `用户创建成功` and `success`. The id rule is preserved. |
| UserModel.PositionalIdsAreIncreasing | app/api/users/route.ts:35 | under the id rule, ids strictly increase along the list, and every id lies between 1 and length, so the next id `length + 1` is fresh |
| UserHistory.Accepted | app/api/users/route.ts:26-31 | the number of accepted POSTs in a history is at most its length, and is 0 exactly when none carries both fields |
| UserHistory.ReplayLength | app/api/users/route.ts:26-41 | after any history the list has grown by exactly the number of accepted POSTs, so it grows exactly when some POST was accepted |
| UserHistory.ReplayKeepsEarlier | app/api/users/route.ts:41 | later POSTs never change, remove or reorder records already stored |
| UserHistory.ReplayKeepsIdsPositional | app/api/users/route.ts:35-41 | every history of POSTs preserves the id rule |
| UserHistory.ReplayConcat | app/api/users/route.ts:41 | handling two histories in turn is handling their concatenation |
| UserHistory.ReplayExtendsPrefix | app/api/users/route.ts:41 | the list after a whole history starts with the list as it stood after any earlier POST |
| UserHistory.SeededIdsUnique | app/api/users/route.ts:4-41 | from the seed, after any history, the record at index i has id i + 1, so ids strictly increase and are unique |
| UserHistory.CreatedUserStays | app/api/users/route.ts:34-45 | the record an accepted POST returns stays in the list at index id - 1 whatever POSTs follow |
| UserHistory.ReturnedIdsIncrease | app/api/users/route.ts:35 | ids returned by successive accepted POSTs strictly increase |
| UsersRoute.UserStore.constructor | app/api/users/route.ts:4-8 | the store starts with exactly the three seed records and no POST history |
| UsersRoute.UserStore.Get | app/api/users/route.ts:10-19 | status 200; the payload is the current list, in order, with `total` equal to its length and `status` `success`; the method changes nothing; the listed ids are 1 to length |
| UsersRoute.UserStore.Post | app/api/users/route.ts:21-55 | the response and the new list are those `HandlePost` gives for the old list; the body is recorded in the history; the list is still the seed followed by every POST's effect, and keeps the id rule |
| UsersRoute.SeededScenario | app/api/users/route.ts:4-47 | on the seeded store, a POST of only a name and an email returns 201 and the record with id 4 and role `user`; a following GET reports a total of 4 |

## Left out

- The 100 ms artificial delay in `GET` is not modelled. It is a timer and changes no result.
- JSON parsing and `NextResponse.json` serialisation are not modelled. The parse outcome is an input, and a response is a status code and a payload value.
- Field values that are truthy but not strings are not modelled. JSON can give a number, boolean, array or object, and the route would store it as the name, email or role. The model types every field as a string.
- JavaScript's array length limit is not modelled. A `push` beyond 2^32 - 1 elements throws a RangeError, which the route's catch turns into a 500. The model's list is unbounded; the limit cannot be reached in practice.
- Concurrent requests are not modelled. The route has no locking, and each POST is one atomic step here.
- The item routes `GET`, `PUT` and `DELETE /api/users/{id}` are not part of this model, nor is any deletion. The id rule proved here relies on records never being removed.
- The greeting route `app/api/hello/route.ts`, the demonstration pages and the `lib/api.ts` fetch wrapper are not part of this model. They are presentation and network plumbing.
