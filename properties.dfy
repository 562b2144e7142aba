/**
 * Properties of the user directory that relate several calls: ids stay
 * strictly increasing under any series of creates, lookups see a new record
 * and nothing else changes for them, and concrete requests: the body
 * `{name: "A", email: "a@x.com"}` on the seed, `{}`, bodies lacking `name` or
 * `email`, an empty `role`, and lookups of ids 2 and 999 on the seed.
 */
module UserProperties {
  import opened Users

  lemma SeedIdsIncreasing()
    ensures IdsIncreasing(Seed())
    ensures forall i :: 0 <= i < |Seed()| ==> Seed()[i].id == i + 1
  {
  }

  /** Strictly increasing ids are pairwise distinct. */
  lemma IncreasingIdsAreDistinct(users: seq<User>, i: nat, j: nat)
    requires IdsIncreasing(users)
    requires i < |users| && j < |users| && i != j
    ensures users[i].id != users[j].id
  {
  }

  /** In an increasing directory the next id is one more than the last record's. */
  lemma NextIdFollowsLast(users: seq<User>)
    requires IdsIncreasing(users) && users != []
    ensures NextId(users) == users[|users| - 1].id + 1
  {
  }

  /** One create call keeps the ids strictly increasing. */
  lemma CreateKeepsIdsIncreasing(users: seq<User>, payload: Option<Payload>)
    requires IdsIncreasing(users)
    ensures IdsIncreasing(Create(users, payload).1)
  {
  }

  /**
   * Any series of create calls only appends to the directory and keeps its ids
   * strictly increasing (hence pairwise distinct).
   */
  lemma {:induction false} CreateAllKeepsIdsIncreasing(users: seq<User>, payloads: seq<Option<Payload>>)
    requires IdsIncreasing(users)
    ensures IdsIncreasing(CreateAll(users, payloads))
    ensures users <= CreateAll(users, payloads)
    decreases |payloads|
  {
    if payloads != [] {
      var next := Create(users, payloads[0]).1;
      CreateKeepsIdsIncreasing(users, payloads[0]);
      CreateAllKeepsIdsIncreasing(next, payloads[1..]);
    }
  }

  /** Every id in the directory reached from the seed by creates is unique. */
  lemma {:induction false} FromSeedIdsDistinct(payloads: seq<Option<Payload>>, i: nat, j: nat)
    requires i < j < |CreateAll(Seed(), payloads)|
    ensures CreateAll(Seed(), payloads)[i].id != CreateAll(Seed(), payloads)[j].id
    ensures Seed() <= CreateAll(Seed(), payloads)
  {
    SeedIdsIncreasing();
    CreateAllKeepsIdsIncreasing(Seed(), payloads);
    IncreasingIdsAreDistinct(CreateAll(Seed(), payloads), i, j);
  }

  /** Looking up in a list with one record appended at the end. */
  lemma {:induction false} FindUserAppend(users: seq<User>, u: User, id: int)
    ensures FindUser(users + [u], id) ==
      if FindUser(users, id).Some? then FindUser(users, id)
      else if u.id == id then Some(u)
      else None
    decreases |users|
  {
    if users != [] {
      assert (users + [u])[1..] == users[1..] + [u];
      if users[0].id != id {
        FindUserAppend(users[1..], u, id);
      }
    }
  }

  /**
   * After a successful create, looking up the new id finds exactly the new
   * record, and every other id finds what it found before.
   */
  lemma {:induction false} LookupAfterCreate(users: seq<User>, payload: Option<Payload>, id: int)
    requires Create(users, payload).0.UserCreated?
    ensures var u := Create(users, payload).0.user;
      FindUser(Create(users, payload).1, id) ==
        if id == u.id then Some(u) else FindUser(users, id)
  {
    var u := Create(users, payload).0.user;
    FindUserAppend(users, u, id);
  }

  /** The body `{name: "A", email: "a@x.com"}` on the seed creates user 4 with role "user". */
  lemma {:induction false} SeedCreateExample()
    ensures var res := Create(Seed(), Some(map["name" := Str("A"), "email" := Str("a@x.com")]));
      && res.0 == UserCreated(User(4, "A", "a@x.com", Str("user")))
      && |res.1| == 4
  {
    var data := map["name" := Str("A"), "email" := Str("a@x.com")];
    assert "name" in data && "role" !in data;
    SeedIdsIncreasing();
    NextIdFollowsLast(Seed());
  }

  /** An empty JSON object is falsy, so it is answered like an absent body. */
  lemma EmptyObjectIsNoJson(users: seq<User>)
    ensures Create(users, Some(map[])) == (NoJson, users)
    ensures NoJson.Status() == 400 && NoJson.Error() == Some("No JSON data provided")
  {
  }

  /** `name` is checked before `email`: only the first missing field is reported. */
  lemma {:induction false} ValidationOrderExamples(users: seq<User>)
    ensures Create(users, Some(map["role" := Str("x")])).0 == MissingField("name")
    ensures Create(users, Some(map["name" := Str("A")])).0 == MissingField("email")
    ensures Create(users, Some(map["name" := Str(""), "email" := Str("a")])).0 == MissingField("name")
    ensures Create(users, Some(map["name" := Str("A"), "email" := Null])).0 == MissingField("email")
    ensures MissingField("email").Error() == Some("Missing required field: email")
  {
    assert "role" in map["role" := Str("x")] && "name" !in map["role" := Str("x")];
    assert "Missing required field: " + "email" == "Missing required field: email";
    assert "email" !in map["name" := Str("A")];
  }

  /** A present `role` is copied as is, even when empty; an absent one becomes "user". */
  lemma RoleIsCopiedEvenWhenEmpty(users: seq<User>)
    ensures Create(users, Some(map["name" := Str("A"), "email" := Str("a"), "role" := Str("")])).0.user.role == Str("")
  {
  }

  /** GET /api/users/999 on the seed is a 404; GET /api/users/2 finds Jane Smith. */
  lemma SeedLookups()
    ensures FindUser(Seed(), 999) == None
    ensures FindUser(Seed(), 2) == Some(User(2, "Jane Smith", "jane@example.com", Str("user")))
  {
  }

  /** A client of the directory object: create, then look the new record up. */
  method CreateThenGet() returns (created: Response, found: Response, total: nat)
    ensures created == UserCreated(User(4, "A", "a@x.com", Str("user")))
    ensures found == UserFound(created.user)
    ensures total == 4
  {
    var d := new Directory();
    SeedCreateExample();
    created := d.CreateUser(Some(map["name" := Str("A"), "email" := Str("a@x.com")]));
    LookupAfterCreate(Seed(), Some(map["name" := Str("A"), "email" := Str("a@x.com")]), 4);
    found := d.GetUser(4);
    total := d.GetStats().totalUsers;
  }
}
