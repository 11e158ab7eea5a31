/**
 * The lock screen's unlock gate.  The unlock callback is a parameter; the
 * calls made to it are recorded.  The error message is kept as its
 * translation key (`wallet.lock.error`), the empty string meaning no error.
 */
module LockScreen {

  /** The translation key of the unlock error. */
  const UnlockErrorKey := "wallet.lock.error"

  /** The shortest password the screen passes on to the unlock callback. */
  const MinPasswordLength := 8

  /** The unlock button is disabled exactly while the password field is empty. */
  predicate UnlockDisabled(password: string) {
    password == ""
  }

  class WalletLockScreen {
    var password: string
    var error: string
    /** The passwords handed to `onUnlock`, in order. */
    var unlockCalls: seq<string>

    constructor()
      ensures password == "" && error == "" && unlockCalls == []
    {
      password := "";
      error := "";
      unlockCalls := [];
    }

    /** Editing the password field always clears the error. */
    method OnPasswordChange(text: string)
      modifies this
      ensures password == text && error == "" && unlockCalls == old(unlockCalls)
    {
      password := text;
      error := "";
    }

    /**
     * `handleUnlock`: a password shorter than eight characters sets the
     * error without calling `onUnlock`; a longer one calls it exactly once,
     * and the error is cleared iff it reports success.
     */
    method HandleUnlock(onUnlock: string -> bool) returns (unlocked: bool)
      modifies this
      ensures password == old(password)
      ensures |password| < MinPasswordLength ==>
        !unlocked && unlockCalls == old(unlockCalls) && error == UnlockErrorKey
      ensures |password| >= MinPasswordLength ==>
        && unlockCalls == old(unlockCalls) + [password]
        && unlocked == onUnlock(password)
        && (error == "" <==> unlocked)
        && (!unlocked ==> error == UnlockErrorKey)
    {
      unlocked := false;
      if |password| >= MinPasswordLength {
        unlockCalls := unlockCalls + [password];
        unlocked := onUnlock(password);
        if unlocked {
          error := "";
        } else {
          error := UnlockErrorKey;
        }
      } else {
        error := UnlockErrorKey;
      }
    }
  }
}
