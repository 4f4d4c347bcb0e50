/**
 * The in-app purchase ledger: a verified purchase of a credit pack adds its credits to the
 * user's AI message quota in the database and, once that write succeeds, to the
 * session's `purchasedCredits`; every other outcome only sets (or keeps) the error message.
 */
module Store {
  import opened Wrappers
  import opened Firestore

  const Credits10Id := "com.erenalikoca.todoapp.credits.10"
  const Credits50Id := "com.erenalikoca.todoapp.credits.50"
  const Credits100Id := "com.erenalikoca.todoapp.credits.100"

  /** `productIdentifiers`. */
  const ProductIdentifiers := [Credits10Id, Credits50Id, Credits100Id]

  /** The user-document field that holds the remaining AI messages. */
  const QuotaField := "aiMessageQuota"

  const UnverifiedPrefix := "Satın alma doğrulanamadı: "
  const PendingMessage := "Satın alma işlemi beklemede"
  const UnknownMessage := "Bilinmeyen bir hata oluştu"
  const PurchaseFailedPrefix := "Satın alma işlemi başarısız: "
  const AddCreditsFailedPrefix := "Krediler eklenirken hata oluştu: "

  /**
   * The credits a product id is worth: 10, 50 or 100 for the three packs, compared as whole
   * ids, and 0 for any other id.
   */
  function CreditsFor(productId: string): (credits: int)
    ensures credits in {0, 10, 50, 100}
    ensures credits != 0 <==> productId in ProductIdentifiers
    ensures productId == Credits10Id ==> credits == 10
    ensures productId == Credits50Id ==> credits == 50
    ensures productId == Credits100Id ==> credits == 100
  {
    if productId == Credits10Id then 10
    else if productId == Credits50Id then 50
    else if productId == Credits100Id then 100
    else 0
  }

  /** A purchase's verification result. */
  datatype Verification = Verified | Unverified(errorDescription: string)

  /** `Product.PurchaseResult`, with `Unknown` for the `@unknown default` case. */
  datatype PurchaseResult = Success(verification: Verification) | UserCancelled | Pending | Unknown

  /** What `product.purchase()` gives: a result, or a thrown error. */
  datatype PurchaseOutcome = Returned(result: PurchaseResult) | Threw(errorDescription: string)

  /** The quota a user document holds (0 when the field is missing or not a number). */
  function Quota(user: Fields): int
  {
    NumberOr0(user, QuotaField)
  }

  class StoreManager {
    /** The ids of the loaded products; loading them from the store is not modelled. */
    var products: seq<string>
    var purchasedCredits: int
    var errorMessage: Option<string>

    constructor ()
      ensures products == [] && purchasedCredits == 0 && errorMessage.None?
    {
      products := [];
      purchasedCredits := 0;
      errorMessage := None;
    }

    /**
     * `addCreditsToUser(for:)`. With no signed-in user nothing happens. Otherwise the
     * quota field of the user's document is incremented by the product's credits; when that
     * write succeeds `purchasedCredits` grows by the same amount, and when it fails (the
     * database is unreachable or the document is missing) only the error message is set.
     */
    method AddCreditsToUser(productId: string, currentUser: Option<string>, db: Database, reachable: bool,
                            writeError: string)
      modifies this`purchasedCredits, this`errorMessage, db
      ensures db.todos == old(db.todos)
      ensures currentUser.None? ==>
        purchasedCredits == old(purchasedCredits) && errorMessage == old(errorMessage) &&
        db.users == old(db.users)
      ensures currentUser.Some? && reachable && currentUser.value in old(db.users) ==>
        var uid := currentUser.value;
        purchasedCredits == old(purchasedCredits) + CreditsFor(productId) &&
        errorMessage == old(errorMessage) &&
        uid in db.users && Quota(db.users[uid]) == Quota(old(db.users)[uid]) + CreditsFor(productId) &&
        db.users == old(db.users)[uid := db.users[uid]] &&
        (forall key :: key in old(db.users)[uid] && key != QuotaField ==>
          key in db.users[uid] && db.users[uid][key] == old(db.users)[uid][key])
      ensures currentUser.Some? && !(reachable && currentUser.value in old(db.users)) ==>
        purchasedCredits == old(purchasedCredits) &&
        errorMessage == Some(AddCreditsFailedPrefix + writeError) &&
        db.users == old(db.users)
    {
      if currentUser.None? {
        return;
      }
      var userId := currentUser.value;
      var creditsToAdd := CreditsFor(productId);
      var ok := db.IncrementField(userId, QuotaField, creditsToAdd, reachable);
      if ok {
        purchasedCredits := purchasedCredits + creditsToAdd;
      } else {
        errorMessage := Some(AddCreditsFailedPrefix + writeError);
      }
    }

    /**
     * `purchase(_:)`: a verified success adds the product's credits as above; an unverified
     * one, a pending or unknown result and a thrown error set their error message and leave
     * credits and the database alone; a cancelled purchase changes nothing at all.
     */
    method Purchase(productId: string, outcome: PurchaseOutcome, currentUser: Option<string>, db: Database,
                    reachable: bool, writeError: string)
      modifies this`purchasedCredits, this`errorMessage, db
      ensures db.todos == old(db.todos)
      ensures outcome == Returned(Success(Verified)) ==>
        if currentUser.Some? && reachable && currentUser.value in old(db.users) then
          currentUser.value in db.users &&
          purchasedCredits == old(purchasedCredits) + CreditsFor(productId) &&
          Quota(db.users[currentUser.value]) == Quota(old(db.users)[currentUser.value]) + CreditsFor(productId)
        else
          purchasedCredits == old(purchasedCredits) && db.users == old(db.users)
      ensures outcome == Returned(Success(Verified)) && currentUser.None? ==>
        errorMessage == old(errorMessage)
      ensures outcome == Returned(Success(Verified)) && currentUser.Some? && reachable &&
              currentUser.value in old(db.users) ==>
        var uid := currentUser.value;
        errorMessage == old(errorMessage) &&
        db.users == old(db.users)[uid := db.users[uid]] &&
        (forall key :: key in old(db.users)[uid] && key != QuotaField ==>
          key in db.users[uid] && db.users[uid][key] == old(db.users)[uid][key])
      ensures outcome == Returned(Success(Verified)) && currentUser.Some? &&
              !(reachable && currentUser.value in old(db.users)) ==>
        errorMessage == Some(AddCreditsFailedPrefix + writeError)
      ensures outcome != Returned(Success(Verified)) ==>
        purchasedCredits == old(purchasedCredits) && db.users == old(db.users)
      ensures outcome == Returned(UserCancelled) ==> errorMessage == old(errorMessage)
      ensures outcome.Returned? && outcome.result.Success? && outcome.result.verification.Unverified? ==>
        errorMessage == Some(UnverifiedPrefix + outcome.result.verification.errorDescription)
      ensures outcome == Returned(Pending) ==> errorMessage == Some(PendingMessage)
      ensures outcome == Returned(Unknown) ==> errorMessage == Some(UnknownMessage)
      ensures outcome.Threw? ==> errorMessage == Some(PurchaseFailedPrefix + outcome.errorDescription)
    {
      match outcome {
        case Threw(description) =>
          errorMessage := Some(PurchaseFailedPrefix + description);
        case Returned(result) =>
          match result {
            case Success(verification) =>
              match verification {
                case Verified =>
                  AddCreditsToUser(productId, currentUser, db, reachable, writeError);
                case Unverified(description) =>
                  errorMessage := Some(UnverifiedPrefix + description);
              }
            case UserCancelled =>
            case Pending =>
              errorMessage := Some(PendingMessage);
            case Unknown =>
              errorMessage := Some(UnknownMessage);
          }
      }
    }
  }

  /**
   * The ledger stays in step with the database: whatever a purchase by a signed-in user
   * whose document exists ends in, `purchasedCredits` grows by exactly what the user's
   * quota grows by.
   */
  method PurchaseKeepsLedger(store: StoreManager, db: Database, uid: string, productId: string,
                             outcome: PurchaseOutcome, reachable: bool, writeError: string)
    requires uid in db.users
    modifies store`purchasedCredits, store`errorMessage, db
    ensures uid in db.users
    ensures store.purchasedCredits - old(store.purchasedCredits) ==
      Quota(db.users[uid]) - Quota(old(db.users)[uid])
  {
    store.Purchase(productId, outcome, Some(uid), db, reachable, writeError);
  }
}
