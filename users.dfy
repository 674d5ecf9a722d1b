/**
 * The `User` table as the authentication routes use it: lookup by e-mail and by id,
 * creation at signup (the e-mail column is unique), and the password-hash update of a reset.
 */
module Users {
  import opened Wrappers

  datatype User = User(userId: int, email: string, name: Option<string>, passwordHash: string, role: string, isActive: bool)

  /** The rows in insertion order, and the next id the database assigns. */
  datatype UserTable = UserTable(rows: seq<User>, nextId: int)

  /** Ids and e-mails are unique, and every id is below the id counter. */
  predicate ValidUsers(t: UserTable)
  {
    && (forall i, j :: 0 <= i < j < |t.rows| ==> t.rows[i].userId != t.rows[j].userId && t.rows[i].email != t.rows[j].email)
    && (forall i :: 0 <= i < |t.rows| ==> t.rows[i].userId < t.nextId)
  }

  /** `findUnique({ where: { email } })`. */
  function FindByEmail(rows: seq<User>, email: string): (r: Option<User>)
    ensures r.Some? <==> exists i :: 0 <= i < |rows| && rows[i].email == email
    ensures r.Some? ==> r.value in rows && r.value.email == email
  {
    if rows == [] then None
    else if rows[0].email == email then Some(rows[0])
    else
      var r := FindByEmail(rows[1..], email);
      assert forall i :: 1 <= i < |rows| ==> rows[i] == rows[1..][i - 1];
      r
  }

  /** `findUnique({ where: { id } })`. */
  function FindById(rows: seq<User>, id: int): (r: Option<User>)
    ensures r.Some? <==> exists i :: 0 <= i < |rows| && rows[i].userId == id
    ensures r.Some? ==> r.value in rows && r.value.userId == id
  {
    if rows == [] then None
    else if rows[0].userId == id then Some(rows[0])
    else
      var r := FindById(rows[1..], id);
      assert forall i :: 1 <= i < |rows| ==> rows[i] == rows[1..][i - 1];
      r
  }

  /** In a table of unique ids, the lookup by id finds exactly the row carrying it. */
  lemma {:induction false} FindByIdOfMember(rows: seq<User>, k: int)
    requires forall i, j :: 0 <= i < j < |rows| ==> rows[i].userId != rows[j].userId
    requires 0 <= k < |rows|
    ensures FindById(rows, rows[k].userId) == Some(rows[k])
  {
    if k > 0 {
      assert rows[0].userId != rows[k].userId;
      FindByIdOfMember(rows[1..], k - 1);
    }
  }

  /** In a table of unique e-mails, the lookup by e-mail finds exactly the row carrying it. */
  lemma {:induction false} FindByEmailOfMember(rows: seq<User>, k: int)
    requires forall i, j :: 0 <= i < j < |rows| ==> rows[i].email != rows[j].email
    requires 0 <= k < |rows|
    ensures FindByEmail(rows, rows[k].email) == Some(rows[k])
  {
    if k > 0 {
      assert rows[0].email != rows[k].email;
      FindByEmailOfMember(rows[1..], k - 1);
    }
  }

  /**
   * `user.create(...)`: a row under the next id; `None` is the unique-constraint violation
   * the database raises for an e-mail already present.
   */
  function CreateUser(t: UserTable, email: string, name: Option<string>, passwordHash: string, role: string, isActive: bool): (r: Option<(UserTable, User)>)
    ensures r.None? <==> FindByEmail(t.rows, email).Some?
    ensures r.Some? ==> r.value.1 == User(t.nextId, email, name, passwordHash, role, isActive)
    ensures r.Some? ==> r.value.0 == UserTable(t.rows + [r.value.1], t.nextId + 1)
    ensures r.Some? && ValidUsers(t) ==> ValidUsers(r.value.0)
    ensures r.Some? && ValidUsers(t) ==> FindByEmail(r.value.0.rows, email) == Some(r.value.1)
  {
    if FindByEmail(t.rows, email).Some? then None
    else
      var u := User(t.nextId, email, name, passwordHash, role, isActive);
      var t1 := UserTable(t.rows + [u], t.nextId + 1);
      AppendedIsFound(t, u);
      Some((t1, u))
  }

  lemma AppendedIsFound(t: UserTable, u: User)
    requires FindByEmail(t.rows, u.email).None? && u.userId == t.nextId
    ensures ValidUsers(t) ==> ValidUsers(UserTable(t.rows + [u], t.nextId + 1))
    ensures ValidUsers(t) ==> FindByEmail(t.rows + [u], u.email) == Some(u)
  {
    if ValidUsers(t) {
      var rows := t.rows + [u];
      assert forall i :: 0 <= i < |t.rows| ==> rows[i] == t.rows[i];
      FindByEmailOfMember(rows, |t.rows|);
    }
  }

  /** The rows with the password hash of the row with id `id` replaced, every other field and row kept. */
  function SetPasswordHash(rows: seq<User>, id: int, passwordHash: string): (r: seq<User>)
    ensures |r| == |rows|
    ensures forall i :: 0 <= i < |rows| ==> r[i] == if rows[i].userId == id then rows[i].(passwordHash := passwordHash) else rows[i]
  {
    if rows == [] then []
    else [if rows[0].userId == id then rows[0].(passwordHash := passwordHash) else rows[0]] + SetPasswordHash(rows[1..], id, passwordHash)
  }

  /** `user.update({ where: { id }, data: { passwordHash } })`; the table's validity is kept. */
  function UpdatePasswordHash(t: UserTable, id: int, passwordHash: string): (r: UserTable)
    ensures r.nextId == t.nextId && r.rows == SetPasswordHash(t.rows, id, passwordHash)
    ensures ValidUsers(t) ==> ValidUsers(r)
  {
    UserTable(SetPasswordHash(t.rows, id, passwordHash), t.nextId)
  }

  /** After the update, the user is found by e-mail with the new hash, and every other user is found as before. */
  lemma UpdateThenFind(t: UserTable, k: int, passwordHash: string, email: string)
    requires ValidUsers(t) && 0 <= k < |t.rows|
    ensures FindByEmail(UpdatePasswordHash(t, t.rows[k].userId, passwordHash).rows, t.rows[k].email)
            == Some(t.rows[k].(passwordHash := passwordHash))
    ensures email != t.rows[k].email ==>
              FindByEmail(UpdatePasswordHash(t, t.rows[k].userId, passwordHash).rows, email) == FindByEmail(t.rows, email)
  {
    var r := UpdatePasswordHash(t, t.rows[k].userId, passwordHash);
    FindByEmailOfMember(r.rows, k);
    if email != t.rows[k].email {
      FindByEmailUnaffected(t.rows, t.rows[k].userId, passwordHash, email);
    }
  }

  lemma {:induction false} FindByEmailUnaffected(rows: seq<User>, id: int, passwordHash: string, email: string)
    requires forall u :: u in rows && u.userId == id ==> u.email != email
    ensures FindByEmail(SetPasswordHash(rows, id, passwordHash), email) == FindByEmail(rows, email)
  {
    if rows != [] {
      FindByEmailUnaffected(rows[1..], id, passwordHash, email);
    }
  }

  /** The user repository object the route handlers share. */
  class UserRepository {
    var rows: seq<User>
    var nextId: int

    function Model(): UserTable
      reads this
    {
      UserTable(rows, nextId)
    }

    constructor (initial: UserTable)
      ensures Model() == initial
    {
      rows := initial.rows;
      nextId := initial.nextId;
    }

    /** `user.findUnique({ where: { email } })`: the row with that e-mail, the only one in a valid table. */
    function FindUniqueByEmail(email: string): (r: Option<User>)
      reads this
      ensures r.Some? <==> exists k :: 0 <= k < |rows| && rows[k].email == email
      ensures r.Some? ==> r.value in rows && r.value.email == email
      ensures r.Some? && ValidUsers(Model()) ==> forall k :: 0 <= k < |rows| && rows[k].email == email ==> rows[k] == r.value
    {
      var r := FindByEmail(rows, email);
      assert r.Some? && ValidUsers(Model()) ==> forall k :: 0 <= k < |rows| && rows[k].email == email ==> rows[k] == r.value by {
        if r.Some? && ValidUsers(Model()) {
          var j :| 0 <= j < |rows| && rows[j] == r.value;
          assert forall k :: 0 <= k < |rows| && rows[k].email == email ==> k == j;
        }
      }
      r
    }

    /** `user.findUnique({ where: { userId } })`: the row with that id, the only one in a valid table. */
    function FindUniqueById(id: int): (r: Option<User>)
      reads this
      ensures r.Some? <==> exists k :: 0 <= k < |rows| && rows[k].userId == id
      ensures r.Some? ==> r.value in rows && r.value.userId == id
      ensures r.Some? && ValidUsers(Model()) ==> forall k :: 0 <= k < |rows| && rows[k].userId == id ==> rows[k] == r.value
    {
      var r := FindById(rows, id);
      assert r.Some? && ValidUsers(Model()) ==> forall k :: 0 <= k < |rows| && rows[k].userId == id ==> rows[k] == r.value by {
        if r.Some? && ValidUsers(Model()) {
          var j :| 0 <= j < |rows| && rows[j] == r.value;
          assert forall k :: 0 <= k < |rows| && rows[k].userId == id ==> k == j;
        }
      }
      r
    }

    /** `user.create`; `None` when the e-mail is taken, the table then left alone. */
    method Create(email: string, name: Option<string>, passwordHash: string, role: string, isActive: bool) returns (u: Option<User>)
      modifies this
      ensures var r := CreateUser(old(Model()), email, name, passwordHash, role, isActive);
              if r.None? then u.None? && Model() == old(Model()) else u == Some(r.value.1) && Model() == r.value.0
    {
      if FindByEmail(rows, email).Some? {
        return None;
      }
      var created := User(nextId, email, name, passwordHash, role, isActive);
      rows := rows + [created];
      nextId := nextId + 1;
      u := Some(created);
    }

    method Update(id: int, passwordHash: string)
      modifies this
      ensures Model() == UpdatePasswordHash(old(Model()), id, passwordHash)
    {
      rows := SetPasswordHash(rows, id, passwordHash);
    }
  }
}
