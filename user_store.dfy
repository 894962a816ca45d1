/** The in-memory user store of backend/src/utils/userStore.ts: the module-level
    `memoryUsers` array, searched with find, findIndex and some, extended with
    push, rewritten at an index with an object spread, and shortened with splice. */
module UserStore {
  import opened Wrappers
  import opened Collections

  /** IUser: `_id` is a string here, unlike the ObjectIds of the database. */
  datatype StoredUser = StoredUser(
    id: string,
    name: string,
    email: string,
    password: string,
    role: string,
    studentId: Option<string>,
    teacherId: Option<string>,
    phone: string,
    gender: string,
    age: int,
    grade: Option<string>,
    klass: Option<string>,
    department: Option<string>,
    avatar: Option<string>)

  /** Partial<IUser>: a field is Some when the update supplies it. */
  datatype UserPatch = UserPatch(
    id: Option<string>,
    name: Option<string>,
    email: Option<string>,
    password: Option<string>,
    role: Option<string>,
    studentId: Option<string>,
    teacherId: Option<string>,
    phone: Option<string>,
    gender: Option<string>,
    age: Option<int>,
    grade: Option<string>,
    klass: Option<string>,
    department: Option<string>,
    avatar: Option<string>)

  /** A supplied value, or the one already there. */
  function Pick<T>(supplied: Option<T>, current: T): T {
    if supplied.Some? then supplied.value else current
  }

  /** A supplied value of an optional field, or the one already there. */
  function PickOpt<T>(supplied: Option<T>, current: Option<T>): Option<T> {
    if supplied.Some? then supplied else current
  }

  /** `{ ...u, ...p }`: every field the patch supplies wins, every other field
      keeps the stored value. */
  function Merge(u: StoredUser, p: UserPatch): StoredUser {
    StoredUser(
      Pick(p.id, u.id), Pick(p.name, u.name), Pick(p.email, u.email), Pick(p.password, u.password),
      Pick(p.role, u.role), PickOpt(p.studentId, u.studentId), PickOpt(p.teacherId, u.teacherId),
      Pick(p.phone, u.phone), Pick(p.gender, u.gender), Pick(p.age, u.age), PickOpt(p.grade, u.grade),
      PickOpt(p.klass, u.klass), PickOpt(p.department, u.department), PickOpt(p.avatar, u.avatar))
  }

  /** The spread's effect field by field, on the fields the backend reads back. */
  lemma MergeSuppliedWins(u: StoredUser, p: UserPatch)
    ensures Merge(u, p).id == (if p.id.Some? then p.id.value else u.id)
    ensures Merge(u, p).email == (if p.email.Some? then p.email.value else u.email)
    ensures Merge(u, p).password == (if p.password.Some? then p.password.value else u.password)
    ensures Merge(u, p).role == (if p.role.Some? then p.role.value else u.role)
    ensures Merge(u, p).studentId == (if p.studentId.Some? then p.studentId else u.studentId)
  {
  }

  /** The empty patch changes nothing, and a patch applied twice is applied once. */
  lemma MergeEmptyAndTwice(u: StoredUser, p: UserPatch)
    ensures Merge(u, UserPatch(None, None, None, None, None, None, None, None, None, None, None, None, None, None)) == u
    ensures Merge(Merge(u, p), p) == Merge(u, p)
  {
  }

  function HasId(id: string): StoredUser -> bool {
    (u: StoredUser) => u.id == id
  }

  function HasEmail(email: string): StoredUser -> bool {
    (u: StoredUser) => u.email == email
  }

  /** `Array.prototype.find`: the first element satisfying `p`. */
  function Find(users: seq<StoredUser>, p: StoredUser -> bool): (r: Option<StoredUser>)
    ensures r.Some? ==> r.value in users && p(r.value)
    ensures r.None? <==> forall i | 0 <= i < |users| :: !p(users[i])
    ensures r.Some? ==> exists i | 0 <= i < |users| :: users[i] == r.value && forall j | 0 <= j < i :: !p(users[j])
  {
    match FirstIndex(users, p)
    case None => None
    case Some(i) => Some(users[i])
  }

  class UserList {
    var users: seq<StoredUser>

    /** `memoryUsers` as loaded; the file it is read from is not part of this model. */
    constructor (loaded: seq<StoredUser>)
      ensures users == loaded
    {
      users := loaded;
    }

    /** findUserById: the first user whose `_id` is exactly `id`. */
    function FindUserById(id: string): (r: Option<StoredUser>)
      reads this
      ensures r.Some? ==> r.value in users && r.value.id == id
      ensures r.None? <==> forall i | 0 <= i < |users| :: users[i].id != id
    {
      Find(users, HasId(id))
    }

    /** findUserByEmail: the first user whose e-mail is exactly `email`, compared
        as stored, with no trimming or case folding. */
    function FindUserByEmail(email: string): (r: Option<StoredUser>)
      reads this
      ensures r.Some? ==> r.value in users && r.value.email == email
      ensures r.None? <==> forall i | 0 <= i < |users| :: users[i].email != email
    {
      Find(users, HasEmail(email))
    }

    /** userExists: `memoryUsers.some(user => user._id === userId)`. */
    function UserExists(id: string): (r: bool)
      reads this
      ensures r <==> FindUserById(id).Some?
    {
      exists i | 0 <= i < |users| :: users[i].id == id
    }

    /** addUser: pushed at the end, whether or not the id or e-mail is taken. */
    method AddUser(user: StoredUser)
      modifies this
      ensures users == old(users) + [user]
    {
      users := users + [user];
    }

    /** updateUser: the first user with the id replaced by the merge of it and the
        patch; false, and no change, when there is none. */
    method UpdateUser(id: string, patch: UserPatch) returns (updated: bool)
      modifies this
      ensures updated <==> old(FirstIndex(users, HasId(id))).Some?
      ensures !updated ==> users == old(users)
      ensures updated ==>
        var i := old(FirstIndex(users, HasId(id))).value;
        users == old(users)[i := Merge(old(users)[i], patch)]
    {
      var index := FirstIndex(users, HasId(id));
      if index.None? {
        return false;
      }
      users := users[index.value := Merge(users[index.value], patch)];
      updated := true;
    }

    /** deleteUser: the first user with the id spliced out, the rest kept in order;
        false, and no change, when there is none. */
    method DeleteUser(id: string) returns (deleted: bool)
      modifies this
      ensures deleted <==> old(FirstIndex(users, HasId(id))).Some?
      ensures !deleted ==> users == old(users)
      ensures deleted ==>
        var i := old(FirstIndex(users, HasId(id))).value;
        users == old(users)[..i] + old(users)[i + 1..]
    {
      var index := FirstIndex(users, HasId(id));
      if index.None? {
        return false;
      }
      users := users[..index.value] + users[index.value + 1..];
      deleted := true;
    }
  }

  /** After addUser, looking the id up finds the new user unless an earlier user
      holds the same id: nothing stops the duplicate, and find keeps returning
      the earlier one. */
  lemma AddedUserFound(users: seq<StoredUser>, user: StoredUser)
    ensures Find(users + [user], HasId(user.id)) ==
      if Find(users, HasId(user.id)).Some? then Find(users, HasId(user.id)) else Some(user)
  {
    var s := users + [user];
    match FirstIndex(users, HasId(user.id))
    case Some(i) =>
      assert s[i] == users[i];
      assert forall j | 0 <= j < i :: s[j] == users[j];
      assert FirstIndex(s, HasId(user.id)) == Some(i);
    case None =>
      assert forall j | 0 <= j < |users| :: s[j] == users[j];
      assert HasId(user.id)(s[|users|]);
      assert FirstIndex(s, HasId(user.id)) == Some(|users|);
  }

  /** An update keeps the length and every other user, and the updated user is the
      merge; when the patch keeps the id, the id still finds that user. */
  lemma UpdateKeepsTheRest(users: seq<StoredUser>, id: string, patch: UserPatch)
    requires FirstIndex(users, HasId(id)).Some?
    ensures var i := FirstIndex(users, HasId(id)).value;
      var after := users[i := Merge(users[i], patch)];
      && |after| == |users|
      && (forall j | 0 <= j < |users| && j != i :: after[j] == users[j])
      && (patch.id.None? || patch.id == Some(id) ==> Find(after, HasId(id)) == Some(Merge(users[i], patch)))
  {
    var i := FirstIndex(users, HasId(id)).value;
    var after := users[i := Merge(users[i], patch)];
    if patch.id.None? || patch.id == Some(id) {
      assert HasId(id)(after[i]);
      assert forall j | 0 <= j < i :: after[j] == users[j];
      assert FirstIndex(after, HasId(id)) == Some(i);
    }
  }

  /** When ids are unique, deleting a user leaves no user with that id. */
  lemma DeleteRemovesTheOnlyMatch(users: seq<StoredUser>, id: string)
    requires FirstIndex(users, HasId(id)).Some?
    requires forall a, b | 0 <= a < b < |users| :: users[a].id != users[b].id
    ensures var i := FirstIndex(users, HasId(id)).value;
      Find(users[..i] + users[i + 1..], HasId(id)).None?
  {
    var i := FirstIndex(users, HasId(id)).value;
    var after := users[..i] + users[i + 1..];
    forall j | 0 <= j < |after| ensures after[j].id != id {
      if j < i {
        assert after[j] == users[j];
      } else {
        assert after[j] == users[j + 1];
      }
    }
  }
}
