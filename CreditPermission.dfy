/**
 * The three places that decide whether a user may list a property: the
 * persisted client store (src/store/can-list-permission.ts), the server
 * hook that reads the user's credit (src/hooks/can-list-property.ts) and
 * the React context that caches the hook's answer
 * (src/context/CanListProvider.tsx).
 */
module CreditPermission {
  import opened Common

  /** The store's rule: listing needs a positive credit. */
  predicate StoreAllows(credit: int)
  {
    credit > 0
  }

  /** The zustand store `useCreditStore`. */
  class CreditStore {
    var canList: bool
    var credit: int

    constructor ()
      ensures !canList && credit == 0
    {
      canList := false;
      credit := 0;
    }

    /** canListProperty: recomputes the flag from the credit, which it leaves alone. */
    method CanListProperty()
      modifies this
      ensures canList == StoreAllows(credit)
      ensures credit == old(credit)
    {
      canList := credit > 0;
    }
  }

  /** getUserCredit: `user` is what dbUser returns; any credit other than zero allows listing. */
  function GetUserCredit(user: Option<User>): (r: Result<bool>)
    ensures user.None? <==> r == Err("User not found")
    ensures user.Some? ==> r == Ok(user.value.credit != 0)
  {
    if user.None? then Err("User not found")
    else if user.value.credit == 0 then Ok(false)
    else Ok(true)
  }

  /** The hook's answer depends on nothing but the credit. */
  lemma HookReadsOnlyCredit(a: User, b: User)
    requires a.credit == b.credit
    ensures GetUserCredit(Some(a)) == GetUserCredit(Some(b))
  {
  }

  /** The store and the hook agree on every credit except a negative one, where the hook allows and the store refuses. */
  lemma StoreAndHookDisagreeBelowZero(user: User)
    ensures user.credit >= 0 ==> GetUserCredit(Some(user)) == Ok(StoreAllows(user.credit))
    ensures user.credit < 0 ==> GetUserCredit(Some(user)) == Ok(true) && !StoreAllows(user.credit)
  {
  }

  /** The value the provider shares. */
  class CanListContext {
    var canList: bool

    constructor ()
      ensures !canList
    {
      canList := false;
    }

    /** checkUserCredit: adopts the hook's answer; when the hook throws, the flag stays as it was. */
    method CheckUserCredit(user: Option<User>)
      modifies this
      ensures GetUserCredit(user).Ok? ==> canList == GetUserCredit(user).value
      ensures GetUserCredit(user).Err? ==> canList == old(canList)
    {
      var outcome := GetUserCredit(user);
      if outcome.Ok? {
        canList := outcome.value;
      }
    }
  }

  /** useCanList: the provider's value, or the error thrown outside a provider. */
  function UseCanList(context: Option<CanListContext>): (r: Result<CanListContext>)
    ensures context.None? ==> r == Err("useCanList must be used within a CanListProvider")
    ensures context.Some? ==> r == Ok(context.value)
  {
    if context.None? then Err("useCanList must be used within a CanListProvider") else Ok(context.value)
  }

  /**
   * A user with negative credit, whose credit the store holds from its
   * persisted state, is refused by the store yet allowed by the provider.
   */
  method NegativeCreditSplit(user: User) returns (store: CreditStore, context: CanListContext)
    requires user.credit < 0
    ensures !store.canList && context.canList
  {
    store := new CreditStore();
    store.credit := user.credit;
    store.CanListProperty();
    context := new CanListContext();
    context.CheckUserCredit(Some(user));
  }
}
