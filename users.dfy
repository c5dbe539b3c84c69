/**
 * The user registry behind `/api/users`: registered users and the counter that
 * numbers them. Registration refuses a username already taken; listing never
 * shows a password. Neither endpoint checks a token.
 */
module Users {
  import opened Wrappers
  import Js
  import Arrays

  datatype User = User(id: int, username: string, password: string)

  /** What the endpoints return about a user: `{id, username}`. */
  datatype PublicUser = PublicUser(id: int, username: string)

  /** `users.some((u) => u.username === username)`. */
  function IsTaken(users: seq<User>, username: string): (taken: bool)
    ensures taken <==> exists k :: 0 <= k < |users| && users[k].username == username
  {
    Arrays.FindIndex(users, (u: User) => u.username == username).Some?
  }

  /** `users.map((u) => ({ id: u.id, username: u.username }))`. */
  function PublicList(users: seq<User>): (r: seq<PublicUser>)
    ensures |r| == |users|
    ensures forall k :: 0 <= k < |users| ==> r[k] == PublicUser(users[k].id, users[k].username)
  {
    if users == [] then [] else [PublicUser(users[0].id, users[0].username)] + PublicList(users[1..])
  }

  /** The registry's invariant: usernames pairwise distinct, ids increasing and below the counter. */
  predicate Registry(users: seq<User>, nextUserId: int) {
    && 1 <= nextUserId
    && (forall k :: 0 <= k < |users| ==> 1 <= users[k].id < nextUserId)
    && (forall j, k :: 0 <= j < k < |users| ==> users[j].id < users[k].id)
    && (forall j, k :: 0 <= j < k < |users| ==> users[j].username != users[k].username)
  }

  /** Registering an untaken name under the counter's id keeps every username unique. */
  lemma {:induction false} RegisterKeepsRegistry(users: seq<User>, nextUserId: int, user: User)
    requires Registry(users, nextUserId)
    requires user.id == nextUserId && !IsTaken(users, user.username)
    ensures Registry(users + [user], nextUserId + 1)
  {
    var r := users + [user];
    forall j, k | 0 <= j < k < |r|
      ensures r[j].id < r[k].id && r[j].username != r[k].username
    {
      assert r[j] == users[j];
      if k < |users| {
        assert r[k] == users[k];
      }
    }
  }

  class UserRegistry {
    var users: seq<User>
    var nextUserId: int

    ghost predicate Valid()
      reads this
    {
      Registry(users, nextUserId)
    }

    constructor ()
      ensures Valid()
      ensures users == [] && nextUserId == 1
    {
      users := [];
      nextUserId := 1;
    }

    /**
     * POST /api/users with body `{username, password}`: 400 when either is
     * missing or empty, 400 when the username is taken, otherwise 201 with the
     * new user's id and username.
     */
    method Post(username: Option<string>, password: Option<string>)
      returns (status: int, created: Option<PublicUser>)
      requires Valid()
      modifies this
      ensures Valid()
      ensures !(Js.IsPresentString(username) && Js.IsPresentString(password)) ==>
                status == 400 && created.None? && users == old(users) && nextUserId == old(nextUserId)
      ensures Js.IsPresentString(username) && Js.IsPresentString(password) && IsTaken(old(users), username.value) ==>
                status == 400 && created.None? && users == old(users) && nextUserId == old(nextUserId)
      ensures Js.IsPresentString(username) && Js.IsPresentString(password) && !IsTaken(old(users), username.value) ==>
                && status == 201
                && created == Some(PublicUser(old(nextUserId), username.value))
                && users == old(users) + [User(old(nextUserId), username.value, password.value)]
                && nextUserId == old(nextUserId) + 1
    {
      if !Js.IsPresentString(username) || !Js.IsPresentString(password) {
        return 400, None;
      }
      if IsTaken(users, username.value) {
        return 400, None;
      }
      var user := User(nextUserId, username.value, password.value);
      RegisterKeepsRegistry(users, nextUserId, user);
      nextUserId := nextUserId + 1;
      users := users + [user];
      return 201, Some(PublicUser(user.id, user.username));
    }

    /** GET /api/users: every user, in order, without the password. */
    method Get() returns (status: int, list: seq<PublicUser>)
      ensures status == 200
      ensures |list| == |users|
      ensures forall k :: 0 <= k < |users| ==> list[k] == PublicUser(users[k].id, users[k].username)
    {
      return 200, PublicList(users);
    }
  }

  /** A second registration of "alice" is refused and the registry gains one entry only. */
  method DuplicateScenario() returns (first: int, second: int, users: seq<User>)
    ensures first == 201 && second == 400
    ensures users == [User(1, "alice", "secret")]
  {
    var registry := new UserRegistry();
    var created;
    assert !IsTaken([], "alice");
    first, created := registry.Post(Some("alice"), Some("secret"));
    assert registry.users[0].username == "alice";
    assert IsTaken(registry.users, "alice");
    second, created := registry.Post(Some("alice"), Some("other"));
    users := registry.users;
  }
}
