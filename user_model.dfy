/** The user records served by the /api/users route, the parsed request body a
    POST carries, the responses the route returns, and the pure meaning of one
    POST against the current list of records. */
module UserModel {

  datatype Option<+T> = None | Some(value: T)

  /** One stored user record. */
  datatype User = User(id: int, name: string, email: string, role: string)

  /** The fields a POST body may carry; a field the JSON object lacks is None. */
  datatype Body = Body(name: Option<string>, email: Option<string>, role: Option<string>)

  /** What a handler sends back: an HTTP status code and a JSON payload. */
  datatype Payload =
    | UserList(users: seq<User>, total: int, status: string)
    | UserCreated(message: string, user: User, status: string)
    | Failure(error: string)

  datatype Response = Response(code: int, payload: Payload)

  /** A POST's response together with the list of records it leaves behind. */
  datatype Outcome = Outcome(response: Response, users: seq<User>)

  const Success: string := "success"
  const DefaultRole: string := "user"
  const CreatedMessage: string := "用户创建成功"
  const MissingFieldsError: string := "姓名和邮箱是必需的"
  const ServerError: string := "服务器错误"

  /** The three records the list holds when the server starts: ids 1 to 3 in order,
      every name, email and role filled in. */
  function Seed(): (s: seq<User>)
    ensures |s| == 3 && IdsArePositions(s)
    ensures forall u :: u in s ==> u.name != "" && u.email != "" && u.role != ""
  {
    [ User(1, "张三", "zhangsan@example.com", "admin"),
      User(2, "李四", "lisi@example.com", DefaultRole),
      User(3, "王五", "wangwu@example.com", DefaultRole) ]
  }

  /** JavaScript truthiness of a string field: present and not the empty string. */
  predicate Present(field: Option<string>)
  {
    field.Some? && field.value != ""
  }

  /** The check that rejects a body with status 400. */
  predicate HasRequiredFields(body: Body)
  {
    Present(body.name) && Present(body.email)
  }

  /** `body.role || 'user'`: the role a new record receives. */
  function RoleOf(role: Option<string>): (r: string)
    // a new record never has an empty role
    ensures r != ""
    ensures Present(role) ==> r == role.value
    ensures !Present(role) ==> r == DefaultRole
  {
    if Present(role) then role.value else DefaultRole
  }

  /** The id rule of the list: the record at index i has id i + 1. */
  ghost predicate IdsArePositions(users: seq<User>)
  {
    forall i :: 0 <= i < |users| ==> users[i].id == i + 1
  }

  /** One POST against the list `users`. `request` is None when the body
      could not be parsed, or parsed to a value whose fields cannot be read. */
  function HandlePost(users: seq<User>, request: Option<Body>): (r: Outcome)
    // an unreadable body is a server error and changes nothing
    ensures request.None? ==>
              r.response == Response(500, Failure(ServerError)) && r.users == users
    // a missing or empty name or email is rejected and changes nothing
    ensures request.Some? && !HasRequiredFields(request.value) ==>
              r.response == Response(400, Failure(MissingFieldsError)) && r.users == users
    // the request is accepted exactly when both fields are present
    ensures r.response.code == 201 <==> request.Some? && HasRequiredFields(request.value)
    ensures r.response.code != 201 ==> r.response.payload.Failure? && r.users == users
    // an accepted request appends one record at the end, leaving earlier ones untouched,
    // and returns that very record
    ensures r.response.code == 201 ==>
              |r.users| == |users| + 1 && r.users[..|users|] == users &&
              r.response.payload == UserCreated(CreatedMessage, r.users[|users|], Success)
    // the new record: next id after the current length, supplied name and email, defaulted role
    ensures r.response.code == 201 ==>
              var u := r.users[|users|];
              u.id == |users| + 1 &&
              u.name == request.value.name.value && u.name != "" &&
              u.email == request.value.email.value && u.email != "" &&
              u.role == RoleOf(request.value.role)
    // the id rule survives every POST
    ensures IdsArePositions(users) ==> IdsArePositions(r.users)
  {
    match request
    case None => Outcome(Response(500, Failure(ServerError)), users)
    case Some(body) =>
      if !HasRequiredFields(body) then
        Outcome(Response(400, Failure(MissingFieldsError)), users)
      else
        var newUser := User(|users| + 1, body.name.value, body.email.value, RoleOf(body.role));
        Outcome(Response(201, UserCreated(CreatedMessage, newUser, Success)), users + [newUser])
  }

  /** Under the id rule, ids strictly increase along the list, so no two records share one,
      and the id a POST would assign next is larger than every id present. */
  lemma PositionalIdsAreIncreasing(users: seq<User>)
    requires IdsArePositions(users)
    ensures forall i, j :: 0 <= i < j < |users| ==> users[i].id < users[j].id
    ensures forall u :: u in users ==> 1 <= u.id < |users| + 1
  {
  }
}
