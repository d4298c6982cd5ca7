/**
 * The credit refill server action (src/actions/credit-action.ts): one
 * update that increments a user's credit by the amount given, with any
 * failure of that update turned into an unsuccessful answer. Cache
 * revalidation is left out.
 */
module Credits {
  import opened Common
  import opened Store

  datatype RefillResponse = RefillResponse(message: string, success: bool)

  /**
   * The user list with `amount` added to the credit of the row whose id is
   * `userId` (the unique row, when ids are unique).
   */
  function Credited(users: seq<User>, userId: string, amount: int): (r: seq<User>)
    ensures |r| == |users|
    ensures forall i :: 0 <= i < |r| ==> r[i] == if users[i].id == userId then users[i].(credit := users[i].credit + amount) else users[i]
  {
    seq(|users|, i requires 0 <= i < |users| =>
      if users[i].id == userId then users[i].(credit := users[i].credit + amount) else users[i])
  }

  /**
   * refillCredit: `amount` is the JavaScript number when it is an integer,
   * and None when it is not (NaN or a fraction), which the integer credit
   * column refuses. An unknown id makes the update throw too. The amount is
   * not checked otherwise: zero and negative amounts are applied.
   */
  function Refill(users: seq<User>, amount: Option<int>, userId: string): (seq<User>, RefillResponse)
  {
    if amount.None? || !HasId(users, userId) then (users, RefillResponse("Failed to refill credits", false))
    else (Credited(users, userId, amount.value), RefillResponse("You have successfully refilled your credits", true))
  }

  method RefillCredit(db: Database, amount: Option<int>, productId: string, userId: string) returns (r: RefillResponse)
    modifies db
    ensures (db.users, r) == Refill(old(db.users), amount, userId)
    ensures db.properties == old(db.properties)
  {
    var found := UserById(db.users, userId);
    if amount.None? || found.None? {
      return RefillResponse("Failed to refill credits", false);
    }
    db.users := Credited(db.users, userId, amount.value);
    r := RefillResponse("You have successfully refilled your credits", true);
  }

  /** The answer is successful exactly when the update happened; otherwise the ledger is as it was. */
  lemma RefillSucceedsExactly(users: seq<User>, amount: Option<int>, userId: string)
    ensures var (after, r) := Refill(users, amount, userId);
      && (r.success <==> amount.Some? && HasId(users, userId))
      && (!r.success ==> after == users && r.message == "Failed to refill credits")
  {
  }

  /**
   * On success the target's credit is the old credit plus the amount, whatever
   * the sign of the amount, and nothing else about any row changes.
   */
  lemma RefillCreditsTarget(users: seq<User>, amount: int, userId: string, i: int)
    requires 0 <= i < |users| && users[i].id == userId
    ensures var after := Refill(users, Some(amount), userId).0;
      && |after| == |users|
      && after[i].credit == users[i].credit + amount
      && after[i] == users[i].(credit := after[i].credit)
  {
  }

  /** Rows of other users are untouched. */
  lemma RefillLeavesOthers(users: seq<User>, amount: Option<int>, userId: string, j: int)
    requires 0 <= j < |users| && users[j].id != userId
    ensures Refill(users, amount, userId).0[j] == users[j]
  {
  }

  /** A refill changes no id or e-mail, so the table's unique columns stay unique. */
  lemma RefillKeepsUnique(users: seq<User>, amount: Option<int>, userId: string)
    requires UniqueUsers(users)
    ensures UniqueUsers(Refill(users, amount, userId).0)
    ensures HasId(Refill(users, amount, userId).0, userId) == HasId(users, userId)
  {
    if amount.Some? && HasId(users, userId) {
      var after := Credited(users, userId, amount.value);
      forall i | 0 <= i < |users| ensures after[i].id == users[i].id && after[i].email == users[i].email {
      }
      var i :| 0 <= i < |users| && users[i].id == userId;
      assert after[i].id == userId;
    }
  }

  /** Two successful refills add up: there is no record of what was applied before. */
  lemma {:induction false} RefillTwice(users: seq<User>, a: int, b: int, userId: string)
    requires HasId(users, userId)
    ensures var once := Refill(users, Some(a), userId).0;
      Refill(once, Some(b), userId) == Refill(users, Some(a + b), userId)
  {
    var once := Credited(users, userId, a);
    assert HasId(once, userId) by {
      var i :| 0 <= i < |users| && users[i].id == userId;
      assert once[i].id == userId;
    }
    var twice := Credited(once, userId, b);
    var direct := Credited(users, userId, a + b);
    assert |twice| == |direct|;
    forall i | 0 <= i < |twice| ensures twice[i] == direct[i] {
      if users[i].id == userId {
        assert once[i] == users[i].(credit := users[i].credit + a);
      } else {
        assert once[i] == users[i];
      }
    }
    assert twice == direct;
  }
}
