/** The in-memory user repository: a map from user id to user record, seeded with
    four users, plus the counter that hands out the next id. */
module UserRepository {
  import opened Js
  import opened Users

  datatype Repository = Repository(users: map<int, User>, nextId: int)

  /** Every user is stored under its own id, ids are positive, and `nextId` lies
      above every id in use. */
  predicate Valid(r: Repository) {
    && 1 <= r.nextId
    && forall id :: id in r.users ==> 1 <= id < r.nextId && r.users[id].userId == id
  }

  function BothChannels(email: bool, sms: bool): Prefs {
    [("email", JBool(email)), ("sms", JBool(sms))]
  }

  /** The repository as constructed: users 1 to 4 and `nextId` 5. */
  function Initial(): (r: Repository)
    ensures Valid(r)
    ensures r.users.Keys == {1, 2, 3, 4} && r.nextId == 5
  {
    Repository(
      map[
        1 := User(1, "ironman@avengers.com", "+123456789", BothChannels(true, true)),
        2 := User(2, "loki@avengers.com", "+123456788", BothChannels(true, false)),
        3 := User(3, "hulk@avengers.com", "+123456787", BothChannels(false, false)),
        4 := User(4, "blackwidow@avengers.com", "+123456786", BothChannels(true, true))
      ],
      5)
  }

  /** `getUser(userId)`: the stored user, or `None` (`null`) when there is none. */
  function GetUser(r: Repository, id: int): (u: Option<User>)
    ensures u.Some? <==> id in r.users
    ensures u.Some? ==> u.value == r.users[id]
    ensures Valid(r) && u.Some? ==> u.value.userId == id
  {
    if id in r.users then Some(r.users[id]) else None
  }

  datatype Created = Created(repo: Repository, userId: int)

  /** `createUser(email, telephone, preferences)`: store a new user under the
      current `nextId`, advance the counter and return the id. */
  function CreateUser(r: Repository, email: string, telephone: string, preferences: Prefs): (c: Created)
    ensures c.userId == r.nextId && c.repo.nextId == r.nextId + 1
    ensures Valid(r) ==> c.userId !in r.users && Valid(c.repo)
    ensures GetUser(c.repo, c.userId) == Some(User(c.userId, email, telephone, preferences))
    ensures forall id :: id != c.userId ==> GetUser(c.repo, id) == GetUser(r, id)
  {
    var id := r.nextId;
    Created(Repository(r.users[id := User(id, email, telephone, preferences)], id + 1), id)
  }

  datatype Updated = Updated(repo: Repository, ok: bool)

  /** `updateUser(userId, preferences)`: merge the given preferences into the
      user's, or report `false` when there is no such user. */
  function UpdateUser(r: Repository, id: int, preferences: Prefs): (u: Updated)
    ensures u.ok <==> id in r.users
    ensures !u.ok ==> u.repo == r
    ensures u.ok ==>
              && id in u.repo.users
              && var before := r.users[id];
                 var after := u.repo.users[id];
                 && after.userId == before.userId
                 && after.email == before.email
                 && after.telephone == before.telephone
                 && after.preferences == Merge(before.preferences, preferences)
                 && forall k :: Lookup(after.preferences, k)
                                == if Lookup(preferences, k).Some? then Lookup(preferences, k)
                                   else Lookup(before.preferences, k)
    ensures u.repo.nextId == r.nextId
    ensures forall other :: other != id ==> GetUser(u.repo, other) == GetUser(r, other)
    ensures Valid(r) ==> Valid(u.repo)
  {
    if id !in r.users then Updated(r, false)
    else
      var user := r.users[id];
      var merged := user.(preferences := Merge(user.preferences, preferences));
      Updated(Repository(r.users[id := merged], r.nextId), true)
  }

  /** The repository's two mutating operations, as the HTTP layer issues them. */
  datatype Op =
    | CreateOp(email: string, telephone: string, preferences: Prefs)
    | UpdateOp(id: int, preferences: Prefs)

  function Apply(r: Repository, op: Op): Repository {
    match op
    case CreateOp(e, t, p) => CreateUser(r, e, t, p).repo
    case UpdateOp(id, p) => UpdateUser(r, id, p).repo
  }

  function ApplyAll(r: Repository, ops: seq<Op>): Repository
    decreases |ops|
  {
    if |ops| == 0 then r else ApplyAll(Apply(r, ops[0]), ops[1..])
  }

  function CountCreates(ops: seq<Op>): nat {
    if |ops| == 0 then 0 else (if ops[0].CreateOp? then 1 else 0) + CountCreates(ops[1..])
  }

  /** Whatever sequence of creations and updates follows, the repository stays
      valid, no user disappears, and `nextId` has advanced once per creation. */
  lemma {:induction false} ValidAfterAnyOps(r: Repository, ops: seq<Op>)
    requires Valid(r)
    ensures Valid(ApplyAll(r, ops))
    ensures r.users.Keys <= ApplyAll(r, ops).users.Keys
    ensures ApplyAll(r, ops).nextId == r.nextId + CountCreates(ops)
    decreases |ops|
  {
    if |ops| > 0 {
      var r' := Apply(r, ops[0]);
      assert r.users.Keys <= r'.users.Keys by {
        forall id | id in r.users
          ensures id in r'.users
        {
          match ops[0]
          case CreateOp(e, t, p) =>
            assert GetUser(r', id) == GetUser(r, id) || id == r.nextId;
          case UpdateOp(uid, p) =>
            assert id == uid || GetUser(r', id) == GetUser(r, id);
        }
      }
      ValidAfterAnyOps(r', ops[1..]);
    }
  }

  /** Turning on SMS for user 2 keeps its email setting: a partial update leaves
      the keys it does not mention as they were. */
  lemma PartialUpdateKeepsOtherChannels()
    ensures var u := UpdateUser(Initial(), 2, [("sms", JBool(true))]);
            && u.ok
            && Lookup(u.repo.users[2].preferences, "email") == Some(JBool(true))
            && Lookup(u.repo.users[2].preferences, "sms") == Some(JBool(true))
  {
    var u := UpdateUser(Initial(), 2, [("sms", JBool(true))]);
    assert Lookup(Initial().users[2].preferences, "email") == Some(JBool(true));
  }
}
