/**
 * The two tables the server actions read and write: users, as rows in
 * insertion order, and properties, keyed by id. Lookups follow Prisma's
 * `findUnique`, which finds at most one row for a unique column.
 */
module Store {
  import opened Common

  class Database {
    var users: seq<User>
    var properties: map<string, Property>

    constructor (users: seq<User>, properties: map<string, Property>)
      ensures this.users == users && this.properties == properties
    {
      this.users := users;
      this.properties := properties;
    }
  }

  /** Ids and e-mail addresses are unique columns of the user table. */
  predicate UniqueUsers(users: seq<User>)
  {
    forall i, j :: 0 <= i < j < |users| ==> users[i].id != users[j].id && users[i].email != users[j].email
  }

  predicate HasEmail(users: seq<User>, email: string)
  {
    exists i :: 0 <= i < |users| && users[i].email == email
  }

  predicate HasId(users: seq<User>, id: string)
  {
    exists i :: 0 <= i < |users| && users[i].id == id
  }

  /** `findUnique({ where: { email } })` */
  function UserByEmail(users: seq<User>, email: string): (r: Option<User>)
    ensures r.None? <==> !HasEmail(users, email)
    ensures r.Some? ==> r.value in users && r.value.email == email
  {
    if users == [] then None
    else if users[0].email == email then Some(users[0])
    else
      var r := UserByEmail(users[1..], email);
      assert HasEmail(users, email) ==> HasEmail(users[1..], email) by {
        if HasEmail(users, email) {
          var i :| 0 <= i < |users| && users[i].email == email;
          assert users[1..][i - 1] == users[i];
        }
      }
      assert r.None? ==> !HasEmail(users, email);
      assert r.Some? ==> HasEmail(users, email) by {
        if r.Some? {
          var i :| 0 <= i < |users[1..]| && users[1..][i].email == email;
          assert users[i + 1].email == email;
        }
      }
      r
  }

  /** `findUnique({ where: { id } })` */
  function UserById(users: seq<User>, id: string): (r: Option<User>)
    ensures r.None? <==> !HasId(users, id)
    ensures r.Some? ==> r.value in users && r.value.id == id
  {
    if users == [] then None
    else if users[0].id == id then Some(users[0])
    else
      var r := UserById(users[1..], id);
      assert HasId(users, id) ==> HasId(users[1..], id) by {
        if HasId(users, id) {
          var i :| 0 <= i < |users| && users[i].id == id;
          assert users[1..][i - 1] == users[i];
        }
      }
      assert r.Some? ==> HasId(users, id) by {
        if r.Some? {
          var i :| 0 <= i < |users[1..]| && users[1..][i].id == id;
          assert users[i + 1].id == id;
        }
      }
      r
  }

  /** With unique e-mails the lookup finds the one row that has the address. */
  lemma UserByEmailUnique(users: seq<User>, i: int)
    requires UniqueUsers(users) && 0 <= i < |users|
    ensures UserByEmail(users, users[i].email) == Some(users[i])
  {
    var r := UserByEmail(users, users[i].email);
    var j :| 0 <= j < |users| && users[j] == r.value;
  }

  /** With unique ids the lookup finds the one row that has the id. */
  lemma UserByIdUnique(users: seq<User>, i: int)
    requires UniqueUsers(users) && 0 <= i < |users|
    ensures UserById(users, users[i].id) == Some(users[i])
  {
    var r := UserById(users, users[i].id);
    var j :| 0 <= j < |users| && users[j] == r.value;
  }
}
