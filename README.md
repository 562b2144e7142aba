# User directory of the testflask demonstration service

This project models the in-memory user directory behind the REST endpoints
of `app/app.py`: the list `sample_users` seeded with three records (ids 1–3),
and the handlers that read it (`get_users`, `get_user`, `get_stats`) and
append to it (`create_user`).

- `users.dfy`, module `Users`: the data model and the handlers.
  - A request field's JSON value is `Null` or `Str(s)`; Python truthiness is
    `Truthy` (a non-empty string), and `Present(data, f)` is
    `f in data and data[f]`.
  - A request body is `Option<Payload>`. `None` stands for
    `request.get_json()` returning `None`: a JSON `null` body, or a request
    that is not JSON on older Flask versions. `Some(data)` is a JSON object.
    Bodies that `get_json()` rejects, and JSON bodies that are not objects,
    are left out (see below).
  - `Response` holds each handler's outcome. `Status()` gives the HTTP code
    (200, 201, 400, 404) and `Error()` gives the error text the source returns.
  - The pure rules are `FindUser` (first match in list order), `MaxId` and
    `NextId` (max + 1, or 1), `FirstMissing` (the first falsy required field),
    `NewUser` (role defaults to `"user"`) and `Create` (one create call as a
    function of the old list).
  - The class `Directory` holds `users: seq<User>`. Its read handlers are
    functions with `reads this`. `CreateUser` is a method with
    `modifies this`, proved against `Create`. Its validation `for` loop is the
    method `CheckRequired`. The invariant `Valid()` (ids strictly increasing)
    holds from construction on and is kept by every call.
- `properties.dfy`, module `UserProperties`: lemmas that relate calls.
  - Any series of creates keeps the ids strictly increasing and the old list
    as a prefix.
  - After a create, a lookup of the new id finds the new record, and a lookup
    of any other id gives the same answer as before.
  - Concrete requests are proved as lemmas: `{name: "A", email: "a@x.com"}`
    on the seed, `{}`, bodies lacking `name` or `email`, an empty `role`, and
    lookups of ids 2 and 999 on the seed.

One edge case is easy to misread: the body `{}` does not report the missing
field `name`. In the code an empty dict is falsy, so `if not data` answers
"No JSON data provided" first (`UserProperties.EmptyObjectIsNoJson`). A body
that has some other key but no `name`, such as `{"role": "x"}`, does report
`name` (`UserProperties.ValidationOrderExamples`).

## Model

| member | source | states |
|---|---|---|
| Users.Seed | app/app.py:29-33 | three records with ids 1, 2, 3 in list order, non-empty names and emails, roles "admin", "user", "user" |
| Users.Truthy | app/app.py:261 | a field value is truthy exactly when it is neither null nor the empty string |
| Users.Present | app/app.py:261 | a field passes the check exactly when its key is in the body and its value is neither null nor the empty string; it is then a non-empty string |
| Users.Response.Status | app/app.py:247-279 | 201 exactly for a created user, 400 exactly for NoJson and MissingField, 404 exactly for NotFound, 200 otherwise |
| Users.Response.Error | app/app.py:247-262 | an error text exactly for the 400 and 404 responses: "No JSON data provided", "Missing required field: " followed by the field, "User not found" |
| Users.FindUser | app/app.py:239 | the result is None exactly when no record has the id; otherwise it has that id and is the first record in list order that does |
| Users.Directory.GetUser | app/app.py:236-247 | answers UserFound with a record of the requested id, the first in list order, or NotFound (404, "User not found") exactly when no record has that id; as a function it cannot change the directory |
| Users.Directory.GetUsers | app/app.py:226-233 | lists exactly the directory contents in order, with total equal to their number, status 200 |
| Users.Directory.GetStats | app/app.py:286-291 | total_users equals the total reported by GetUsers; version is "1.0.0" |
| Users.MaxId | app/app.py:266 | for a non-empty list, the result is at least every id and equals some record's id |
| Users.NextId | app/app.py:266 | the new id exceeds every existing id, is 1 for an empty list, and is otherwise one more than some existing id (so it is max + 1) |
| Users.FirstMissing | app/app.py:259-262 | None exactly when every required field is present and truthy; otherwise the first field in order that is missing or falsy |
| Users.CheckRequired | app/app.py:259-262 | the validation loop returns the first missing or falsy field in the given order, or None when there is none |
| Users.NewUser | app/app.py:265-270 | the new record carries the given id, name and email from the body, and role from the body when the key is present (even null or empty), otherwise "user" |
| Users.Create | app/app.py:250-279 | NoJson exactly when `get_json()` gives None or the empty object; otherwise MissingField naming "name" when name is falsy and "email" when only email is; in both failure cases the list is unchanged; success exactly when both are truthy, and then the list is the old one plus the new record at the end, with id greater than every old id and fields as in NewUser |
| Users.Directory.constructor | app/app.py:29-33 | the directory starts as the three seed records and satisfies the id invariant |
| Users.Directory.CreateUser | app/app.py:250-279 | the response and the new list are those of Create on the old list; on 201 the list gains exactly the returned record at the end, on 400 it is unchanged; the id invariant is kept |
| UserProperties.SeedIdsIncreasing | app/app.py:29-33 | the seed ids are 1, 2, 3 in list order, so they are strictly increasing |
| UserProperties.IncreasingIdsAreDistinct | app/app.py:266 | strictly increasing ids are pairwise distinct |
| UserProperties.NextIdFollowsLast | app/app.py:266 | in a directory with increasing ids the next id is the last record's id plus one |
| UserProperties.CreateKeepsIdsIncreasing | app/app.py:265-272 | one create call, whatever the body, keeps the ids strictly increasing |
| UserProperties.CreateAllKeepsIdsIncreasing | app/app.py:265-272 | any series of create calls keeps the ids strictly increasing and keeps the old list as a prefix |
| UserProperties.FromSeedIdsDistinct | app/app.py:29-33 | starting from the seed, after any series of creates, the ids at two different positions differ and the seed records remain the first three |
| UserProperties.FindUserAppend | app/app.py:239 | a lookup in a list with one record appended finds the old answer if there was one, else the appended record if its id matches, else nothing |
| UserProperties.LookupAfterCreate | app/app.py:239-272 | after a successful create, looking up the new id gives the new record and every other id gives the same answer as before |
| UserProperties.SeedCreateExample | app/app.py:265-272 | the body {name: "A", email: "a@x.com"} on the seed creates user 4 with role "user", and the list then has 4 records |
| UserProperties.EmptyObjectIsNoJson | app/app.py:255-256 | the empty object {} is answered 400 "No JSON data provided" and the list is unchanged |
| UserProperties.ValidationOrderExamples | app/app.py:259-262 | {role: "x"} and {name: "", email: "a"} report name; {name: "A"} and {name: "A", email: null} report email; the error text is "Missing required field: email" |
| UserProperties.RoleIsCopiedEvenWhenEmpty | app/app.py:269 | a role key present with the empty string is copied as the empty string |
| UserProperties.SeedLookups | app/app.py:239-247 | on the seed, id 999 finds nothing and id 2 finds Jane Smith |
| UserProperties.CreateThenGet | app/app.py:236-289 | on a fresh directory, creating {name: "A", email: "a@x.com"} returns user 4, looking up 4 returns it, and the user count becomes 4 |

## Left out

- Flask setup, the route decorators and the `<int:user_id>` path converter: routing is framework behaviour, and `GetUser` takes the already-converted integer.
- Logging setup and every log call: output only, never read by the handlers.
- The timestamps (`datetime.datetime.now()`), the `environment` field of `get_stats` and the other environment reads: wall clock and process configuration.
- The static `endpoints` listing and the `message: "User created successfully"` text, which are constant payload parts.
- The HTML templates and the `home`, `health` and `test_page` handlers: constant markup and payloads.
- The catch-all `except` of `create_user` (500 "Internal server error") and the static 404/500 error handlers. `request.get_json()` runs inside the `try`, so a body it rejects ends there: malformed JSON, and on newer Flask versions a missing or non-JSON Content-Type. The model's body is `None` or a JSON object, so it has no such case.
- JSON bodies that are not objects: the model's body is always a map. In the source they take different paths. `[]`, `0`, `false` and `""` are falsy and get 400 "No JSON data provided". `[1]` and `"abc"` get 400 "Missing required field: name", because `"name" not in data` holds for them. Others, such as `5` or `"name"`, raise inside the checks and get 500.
- JSON numbers, booleans, arrays and objects as field values: field values are `null` or strings, and the empty string stands in for Python falsiness.
- Concurrency: the max-then-append sequence of `create_user` is unguarded in the source; the model assumes serialized calls (one call is one atomic step).
