/**
 * The Stripe webhook endpoint (src/app/api/stripe-webhook/route.ts): after
 * the signature check, a dispatch on the event type in which only a
 * succeeded payment touches the ledger. Reading the raw body and the
 * signature check itself are collaborators: the model receives whether
 * reading failed and the outcome of the check.
 */
module Webhook {
  import opened Common
  import opened Store
  import opened Credits

  /**
   * The payment's metadata as the refill receives it: `coin` is
   * `Number(metadata.coin)` when that is an integer, `userId` the
   * `user_id` entry when there is one.
   */
  datatype Metadata = Metadata(coin: Option<int>, productId: string, userId: Option<string>)

  datatype Event = Event(kind: string, metadata: Metadata)

  /** `constructEvent` either throws with a message or yields the event. */
  datatype Verification = SignatureRejected(message: string) | Verified(event: Event)

  datatype ReplyBody = Received | ErrorBody(error: string)

  datatype Reply = Reply(status: int, body: ReplyBody)

  const SucceededKind := "payment_intent.succeeded"

  /** The ledger after the dispatch: only a succeeded payment calls refillCredit. */
  function Dispatch(users: seq<User>, event: Event): seq<User>
  {
    if event.kind != SucceededKind then users
    else if event.metadata.userId.None? then users
    else Refill(users, event.metadata.coin, event.metadata.userId.value).0
  }

  /**
   * `POST`: an unreadable body gives 500, a rejected signature 400 and any
   * verified event, whatever the refill did, `{ received: true }`.
   */
  function Deliver(users: seq<User>, bodyFails: bool, verification: Verification): (seq<User>, Reply)
  {
    if bodyFails then (users, Reply(500, ErrorBody("Internal server error")))
    else if verification.SignatureRejected? then (users, Reply(400, ErrorBody("Webhook Error: " + verification.message)))
    else (Dispatch(users, verification.event), Reply(200, Received))
  }

  method Post(db: Database, bodyFails: bool, verification: Verification) returns (reply: Reply)
    modifies db
    ensures (db.users, reply) == Deliver(old(db.users), bodyFails, verification)
    ensures db.properties == old(db.properties)
  {
    if bodyFails {
      return Reply(500, ErrorBody("Internal server error"));
    }
    if verification.SignatureRejected? {
      return Reply(400, ErrorBody("Webhook Error: " + verification.message));
    }
    var event := verification.event;
    if event.kind == SucceededKind && event.metadata.userId.Some? {
      // The refill's answer is not looked at.
      var _ := RefillCredit(db, event.metadata.coin, event.metadata.productId, event.metadata.userId.value);
    }
    reply := Reply(200, Received);
  }

  /** A rejected signature answers 400 with the verifier's message and leaves the ledger alone. */
  lemma RejectedSignatureChangesNothing(users: seq<User>, message: string)
    ensures Deliver(users, false, SignatureRejected(message)) == (users, Reply(400, ErrorBody("Webhook Error: " + message)))
  {
  }

  /** Any event type other than a succeeded payment is acknowledged and changes nothing. */
  lemma OnlySucceededPaymentsCharge(users: seq<User>, event: Event)
    requires event.kind != "payment_intent.succeeded"
    ensures Deliver(users, false, Verified(event)) == (users, Reply(200, Received))
  {
  }

  /**
   * A succeeded payment applies the refill with the metadata's amount and user,
   * and is acknowledged the same way whether the refill worked or failed.
   */
  lemma SucceededPaymentRefills(users: seq<User>, metadata: Metadata, userId: string)
    requires metadata.userId == Some(userId)
    ensures var (after, reply) := Deliver(users, false, Verified(Event("payment_intent.succeeded", metadata)));
      && after == Refill(users, metadata.coin, userId).0
      && reply == Reply(200, Received)
      && (!Refill(users, metadata.coin, userId).1.success ==> after == users)
  {
    RefillSucceedsExactly(users, metadata.coin, userId);
  }

  /** Delivering the same succeeded payment twice credits its amount twice. */
  lemma RedeliveryCreditsTwice(users: seq<User>, coin: int, productId: string, userId: string, i: int)
    requires UniqueUsers(users) && 0 <= i < |users| && users[i].id == userId
    ensures var event := Verified(Event("payment_intent.succeeded", Metadata(Some(coin), productId, Some(userId))));
      var once := Deliver(users, false, event).0;
      var twice := Deliver(once, false, event).0;
      twice[i].credit == users[i].credit + 2 * coin
  {
    assert HasId(users, userId);
    RefillTwice(users, coin, coin, userId);
    RefillCreditsTarget(users, coin + coin, userId, i);
  }

  /** Failing to read the body answers 500 and changes nothing. */
  lemma UnreadableBodyIsServerError(users: seq<User>, verification: Verification)
    ensures Deliver(users, true, verification) == (users, Reply(500, ErrorBody("Internal server error")))
  {
  }
}
