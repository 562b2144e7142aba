/**
 * The in-memory user directory of the demonstration web service: the user
 * record, the request body of POST /api/users, the responses of the four
 * user endpoints, and the pure rules behind them (first-match lookup,
 * required-field validation in a fixed order, max-plus-one id assignment).
 */
module Users {

  datatype Option<T> = None | Some(value: T)

  /** A JSON value of a request field: `null` or a string. */
  datatype Value = Null | Str(s: string)

  /** Python truthiness of a field value: `null` and `""` are the falsy ones. */
  predicate Truthy(v: Value): (b: bool)
    ensures b <==> v != Null && v != Str("")
  {
    v.Str? && v.s != ""
  }

  /** A parsed JSON object body, from field name to value. */
  type Payload = map<string, Value>

  /** The negation of the create_user test `field not in data or not data[field]`. */
  predicate Present(data: Payload, field: string): (b: bool)
    ensures b <==> field in data && data[field] != Null && data[field] != Str("")
    ensures b ==> data[field].Str? && |data[field].s| > 0
  {
    field in data && Truthy(data[field])
  }

  /** A user record: `{id, name, email, role}`. */
  datatype User = User(id: int, name: string, email: string, role: Value)

  /** The three records the directory starts with. */
  function Seed(): (s: seq<User>)
    ensures |s| == 3
    ensures forall i :: 0 <= i < |s| ==> s[i].id == i + 1 && s[i].name != "" && s[i].email != ""
    ensures s[0].role == Str("admin") && s[1].role == Str("user") && s[2].role == Str("user")
  {
    [ User(1, "John Doe", "john@example.com", Str("admin")),
      User(2, "Jane Smith", "jane@example.com", Str("user")),
      User(3, "Bob Johnson", "bob@example.com", Str("user")) ]
  }

  const Version: string := "1.0.0"

  /** The fields create_user insists on, in the order it checks them. */
  const RequiredFields: seq<string> := ["name", "email"]

  /** What a handler answers (timestamps and the static endpoint listing aside). */
  datatype Response =
    | UserList(users: seq<User>, total: nat)
    | UserFound(user: User)
    | UserCreated(user: User)
    | Statistics(totalUsers: nat, version: string)
    | NoJson
    | MissingField(field: string)
    | NotFound
  {
    /** The HTTP status code the handler sends with this response. */
    function Status(): (code: int)
      ensures code == 201 <==> UserCreated?
      ensures code == 400 <==> NoJson? || MissingField?
      ensures code == 404 <==> NotFound?
      ensures code in {200, 201, 400, 404}
    {
      match this
      case UserCreated(_) => 201
      case NoJson | MissingField(_) => 400
      case NotFound => 404
      case _ => 200
    }

    /** The `error` field of a failure response. */
    function Error(): (e: Option<string>)
      ensures e.Some? <==> Status() >= 400
      ensures NoJson? ==> e == Some("No JSON data provided")
      ensures MissingField? ==> e == Some("Missing required field: " + field)
      ensures NotFound? ==> e == Some("User not found")
    {
      match this
      case NoJson => Some("No JSON data provided")
      case MissingField(f) => Some("Missing required field: " + f)
      case NotFound => Some("User not found")
      case _ => None
    }
  }

  /** Ids strictly increase in list order (so they are pairwise distinct). */
  ghost predicate IdsIncreasing(users: seq<User>) {
    forall i, j :: 0 <= i < j < |users| ==> users[i].id < users[j].id
  }

  /** The first record whose id equals `id`, in list order. */
  function FindUser(users: seq<User>, id: int): (r: Option<User>)
    ensures r.None? <==> forall i :: 0 <= i < |users| ==> users[i].id != id
    ensures r.Some? ==> (
      && r.value.id == id
      && exists k :: 0 <= k < |users| && users[k] == r.value &&
           forall j :: 0 <= j < k ==> users[j].id != id)
    decreases |users|
  {
    if users == [] then None
    else if users[0].id == id then Some(users[0])
    else
      var r := FindUser(users[1..], id);
      if r.Some? then
        ghost var k :| 0 <= k < |users[1..]| && users[1..][k] == r.value &&
          forall j :: 0 <= j < k ==> users[1..][j].id != id;
        assert users[k + 1] == r.value;
        r
      else r
  }

  /** `max([u['id'] for u in users])`: the largest id of a non-empty list. */
  function MaxId(users: seq<User>): (m: int)
    requires users != []
    ensures forall i :: 0 <= i < |users| ==> users[i].id <= m
    ensures exists i :: 0 <= i < |users| && users[i].id == m
    decreases |users|
  {
    if |users| == 1 then users[0].id
    else
      var rest := MaxId(users[1..]);
      if users[0].id >= rest then users[0].id
      else
        assert forall i :: 1 <= i < |users| ==> users[i] == users[1..][i - 1];
        rest
  }

  /** The id a new record receives: the largest existing id plus one, or 1. */
  function NextId(users: seq<User>): (id: int)
    ensures forall i :: 0 <= i < |users| ==> users[i].id < id
    ensures users == [] ==> id == 1
    ensures users != [] ==> exists i :: 0 <= i < |users| && users[i].id == id - 1
  {
    if users != [] then MaxId(users) + 1 else 1
  }

  /** The first field of `fields` that `data` lacks or holds a falsy value for. */
  function FirstMissing(data: Payload, fields: seq<string>): (r: Option<string>)
    ensures r.None? <==> forall j :: 0 <= j < |fields| ==> Present(data, fields[j])
    ensures r.Some? ==> (
      exists k :: 0 <= k < |fields| && fields[k] == r.value && !Present(data, fields[k]) &&
        forall j :: 0 <= j < k ==> Present(data, fields[j]))
    decreases |fields|
  {
    if fields == [] then None
    else if !Present(data, fields[0]) then Some(fields[0])
    else
      var r := FirstMissing(data, fields[1..]);
      if r.Some? then
        ghost var k :| 0 <= k < |fields[1..]| && fields[1..][k] == r.value &&
          !Present(data, fields[1..][k]) &&
          forall j :: 0 <= j < k ==> Present(data, fields[1..][j]);
        assert fields[k + 1] == r.value;
        r
      else r
  }

  /**
   * The validation loop of create_user: it walks the fields in order and
   * stops at the first one missing or falsy.
   */
  method CheckRequired(data: Payload, fields: seq<string>) returns (missing: Option<string>)
    ensures missing == FirstMissing(data, fields)
  {
    for i := 0 to |fields|
      invariant forall j :: 0 <= j < i ==> Present(data, fields[j])
      invariant FirstMissing(data, fields) == FirstMissing(data, fields[i..])
    {
      if !Present(data, fields[i]) {
        return Some(fields[i]);
      }
      assert fields[i..][1..] == fields[i + 1..];
    }
    return None;
  }

  /** The record create_user builds once `name` and `email` passed validation. */
  function NewUser(id: int, data: Payload): (u: User)
    requires Present(data, "name") && Present(data, "email")
    ensures u.id == id && u.name == data["name"].s && u.email == data["email"].s
    ensures u.role == if "role" in data then data["role"] else Str("user")
  {
    User(id, data["name"].s, data["email"].s,
         if "role" in data then data["role"] else Str("user"))
  }

  /** One create_user call on `users`: its response and the resulting list. */
  function Create(users: seq<User>, payload: Option<Payload>): (res: (Response, seq<User>))
    ensures res.0.NoJson? <==> payload.None? || payload.value == map[]
    ensures res.0.NoJson? || res.0.MissingField? || res.0.UserCreated?
    ensures !res.0.UserCreated? ==> res.1 == users
    ensures res.0.MissingField? ==> (
      && payload.Some?
      && (res.0.field == "name" <==> !Present(payload.value, "name"))
      && (res.0.field == "email" <==> Present(payload.value, "name") && !Present(payload.value, "email")))
    ensures res.0.UserCreated? <==> (
      && payload.Some? && payload.value != map[]
      && Present(payload.value, "name") && Present(payload.value, "email"))
    ensures res.0.UserCreated? ==>
      var data, u := payload.value, res.0.user;
      && res.1 == users + [u]
      && u.id == NextId(users)
      && (forall i :: 0 <= i < |users| ==> users[i].id < u.id)
      && u.name == data["name"].s && u.email == data["email"].s
      && u.role == (if "role" in data then data["role"] else Str("user"))
  {
    if payload.None? || payload.value == map[] then (NoJson, users)
    else
      var data := payload.value;
      match FirstMissing(data, RequiredFields)
      case Some(f) =>
        assert f == RequiredFields[0] || f == RequiredFields[1];
        (MissingField(f), users)
      case None =>
        assert Present(data, RequiredFields[0]) && Present(data, RequiredFields[1]);
        var u := NewUser(NextId(users), data);
        (UserCreated(u), users + [u])
  }

  /** The list that results from a series of create_user calls. */
  function CreateAll(users: seq<User>, payloads: seq<Option<Payload>>): seq<User>
    decreases |payloads|
  {
    if payloads == [] then users
    else CreateAll(Create(users, payloads[0]).1, payloads[1..])
  }

  /**
   * The directory: the list `sample_users` that the handlers share and that
   * create_user appends to.
   */
  class Directory {
    var users: seq<User>

    ghost predicate Valid()
      reads this
    {
      IdsIncreasing(users)
    }

    constructor ()
      ensures Valid() && users == Seed()
    {
      users := Seed();
    }

    /** GET /api/users */
    function GetUsers(): (r: Response)
      reads this
      ensures r.UserList? && r.users == users && r.total == |r.users| && r.Status() == 200
    {
      UserList(users, |users|)
    }

    /** GET /api/users/<id> */
    function GetUser(id: int): (r: Response)
      reads this
      ensures r.UserFound? || r.NotFound?
      ensures r.NotFound? <==> forall i :: 0 <= i < |users| ==> users[i].id != id
      ensures r.NotFound? ==> r.Status() == 404 && r.Error() == Some("User not found")
      ensures r.UserFound? ==> (
        && r.Status() == 200 && r.user.id == id
        && exists k :: 0 <= k < |users| && users[k] == r.user &&
             forall j :: 0 <= j < k ==> users[j].id != id)
    {
      match FindUser(users, id)
      case Some(u) => UserFound(u)
      case None => NotFound
    }

    /** GET /api/stats (the user count and version). */
    function GetStats(): (r: Response)
      reads this
      ensures r.Statistics? && r.totalUsers == GetUsers().total && r.version == "1.0.0"
    {
      Statistics(|users|, Version)
    }

    /** POST /api/users */
    method CreateUser(payload: Option<Payload>) returns (r: Response)
      requires Valid()
      modifies this
      ensures Valid()
      ensures (r, users) == Create(old(users), payload)
      ensures r.UserCreated? ==> users == old(users) + [r.user] && r.Status() == 201
      ensures !r.UserCreated? ==> users == old(users) && r.Status() == 400
    {
      if payload.None? || payload.value == map[] {
        return NoJson;
      }
      var data := payload.value;
      var missing := CheckRequired(data, RequiredFields);
      if missing.Some? {
        return MissingField(missing.value);
      }
      var u := NewUser(NextId(users), data);
      users := users + [u];
      r := UserCreated(u);
    }
  }
}
