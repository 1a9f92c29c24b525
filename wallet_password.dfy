/**
 * The wallet PIN flow: creating a PIN takes three screens (choose, confirm,
 * confirm again), changing it takes four (verify the old one, choose,
 * confirm, confirm again). Each screen is one step value; finishing input on
 * it yields the action the screen takes.
 */
module WalletPassword {
  import opened Wrappers

  datatype WalletPasswordType =
    | InitPinStep1
    | InitPinStep2(previous: string)
    | InitPinStep3(previous: string)
    | ChangePinStep1
    | ChangePinStep2(oldPin: string)
    | ChangePinStep3(oldPin: string, previous: string)
    | ChangePinStep4(oldPin: string, previous: string)

  /** What a screen does when input finishes or a request completes. */
  datatype PinAction =
    | Ignored                                   // the next button is busy
    | RejectedTooSimple                         // field cleared, "too simple" alert
    | Push(next: WalletPasswordType)            // the next screen slides in
    | MismatchPopToFirst                        // alert, then back to the first PIN screen
    | MismatchPopOne                            // alert, then back one screen
    | UpdatePin(oldPin: Option<string>, newPin: string)
    | Verify(pin: string)
    | ShowError                                 // a request failed
    | UpdateSucceeded(changed: bool)            // success alert for a set (false) or changed (true) PIN

  /** What a completed request writes to the device and account stores, in order. */
  datatype PinStoreWrite =
    | RecordPinInputTime(time: int)             // the time the PIN was last typed correctly
    | StorePinInKeychain(pin: string)           // kept for biometric payment
    | ResetCheckPinInterval                     // the PIN check interval back to its minimum
    | StoreAccount(account: string)             // the account the server returned

  const CommonPin := "123456"
  const MinDistinctCharacters := 3

  /** The distinct characters of a PIN. */
  function Distinct(pin: string): set<char> {
    set c | c in pin
  }

  /** A PIN is too simple when it is the common one or uses fewer than three distinct characters. */
  predicate TooSimple(pin: string) {
    pin == CommonPin || |Distinct(pin)| < MinDistinctCharacters
  }

  /** The screens on which a new PIN is chosen, and so checked for simplicity. */
  predicate IsChoosingStep(t: WalletPasswordType) {
    t.InitPinStep1? || t.ChangePinStep2?
  }

  /** The screens that confirm a PIN typed on an earlier screen. */
  predicate IsConfirmingStep(t: WalletPasswordType) {
    t.InitPinStep2? || t.InitPinStep3? || t.ChangePinStep3? || t.ChangePinStep4?
  }

  /** Finishing input of `pin` on screen `t` while the next button is not busy. */
  function Transition(t: WalletPasswordType, pin: string): PinAction {
    if IsChoosingStep(t) && TooSimple(pin) then RejectedTooSimple
    else match t
      case InitPinStep1 => Push(InitPinStep2(pin))
      case InitPinStep2(previous) =>
        if previous == pin then Push(InitPinStep3(pin)) else MismatchPopToFirst
      case InitPinStep3(previous) =>
        if previous == pin then UpdatePin(None, pin) else MismatchPopToFirst
      case ChangePinStep1 => Verify(pin)
      case ChangePinStep2(o) => Push(ChangePinStep3(o, pin))
      case ChangePinStep3(o, previous) =>
        if previous == pin then Push(ChangePinStep4(o, pin)) else MismatchPopToFirst
      case ChangePinStep4(o, previous) =>
        if previous == pin then UpdatePin(Some(o), pin) else MismatchPopOne
  }

  /** The outcome of verifying the old PIN on the first change screen. */
  function VerifyOutcome(pin: string, success: bool): (a: PinAction)
    ensures a.Push? <==> success
    ensures success ==> a.next == ChangePinStep2(pin)
    ensures !success ==> a == ShowError
  {
    if success then Push(ChangePinStep2(pin)) else ShowError
  }

  // ---------------------------------------------------------------------
  // Properties of one transition

  /** The simplicity rule fires exactly on the choosing screens, and only there. */
  lemma TooSimpleOnlyWhenChoosing(t: WalletPasswordType, pin: string)
    ensures Transition(t, pin) == RejectedTooSimple <==> IsChoosingStep(t) && TooSimple(pin)
  {
  }

  /**
   * A confirming screen advances exactly when the PIN matches the one typed
   * before; on a mismatch only the last change screen goes back a single
   * screen, the others go back to the first PIN screen.
   */
  lemma ConfirmationMatches(t: WalletPasswordType, pin: string)
    requires IsConfirmingStep(t)
    ensures var a := Transition(t, pin);
      && (a.Push? || a.UpdatePin? <==> pin == t.previous)
      && (pin != t.previous ==> a == (if t.ChangePinStep4? then MismatchPopOne else MismatchPopToFirst))
  {
  }

  /**
   * A PIN update is issued only from the last screen of a flow, with the
   * confirmed PIN; it carries the old PIN exactly when the PIN is being changed.
   */
  lemma UpdatePinOnlyFromLastStep(t: WalletPasswordType, pin: string)
    requires Transition(t, pin).UpdatePin?
    ensures var a := Transition(t, pin);
      && a.newPin == pin
      && (a.oldPin.None? ==> t == InitPinStep3(pin))
      && (a.oldPin.Some? ==> t == ChangePinStep4(a.oldPin.value, pin))
  {
  }

  /** The old PIN is carried unchanged through the change screens into the update. */
  lemma OldPinCarriedForward(t: WalletPasswordType, pin: string)
    requires t.ChangePinStep2? || t.ChangePinStep3? || t.ChangePinStep4?
    ensures var a := Transition(t, pin);
      && (a.Push? ==> (a.next.ChangePinStep3? || a.next.ChangePinStep4?) && a.next.oldPin == t.oldPin)
      && (a.UpdatePin? ==> a.oldPin == Some(t.oldPin))
  {
  }

  /** Only a successful verification leads to the screen that chooses the new PIN. */
  lemma VerifyGuardsNewPinScreen(t: WalletPasswordType, pin: string)
    ensures !(Transition(t, pin).Push? && Transition(t, pin).next.ChangePinStep2?)
    ensures Transition(t, pin).Verify? <==> t == ChangePinStep1
  {
  }

  // ---------------------------------------------------------------------
  // Properties of whole flows

  /** Every PIN that a screen remembers has passed the simplicity rule. */
  predicate RemembersSimplePinsOnly(t: WalletPasswordType) {
    (t.InitPinStep2? || t.InitPinStep3? || t.ChangePinStep3? || t.ChangePinStep4?) ==> !TooSimple(t.previous)
  }

  /** Pushing keeps the invariant: a remembered PIN was chosen on a choosing screen or confirmed equal to one. */
  lemma TransitionKeepsRemembered(t: WalletPasswordType, pin: string)
    requires RemembersSimplePinsOnly(t)
    requires Transition(t, pin).Push?
    ensures RemembersSimplePinsOnly(Transition(t, pin).next)
  {
  }

  /** The first screens remember nothing, and verification pushes a screen that remembers nothing new. */
  lemma FlowStartsRemembering(pin: string, success: bool)
    ensures RemembersSimplePinsOnly(InitPinStep1) && RemembersSimplePinsOnly(ChangePinStep1)
    ensures success ==> RemembersSimplePinsOnly(VerifyOutcome(pin, success).next)
  {
  }

  /** The flow never submits a too-simple PIN. */
  lemma UpdatedPinNeverTooSimple(t: WalletPasswordType, pin: string)
    requires RemembersSimplePinsOnly(t)
    requires Transition(t, pin).UpdatePin?
    ensures !TooSimple(Transition(t, pin).newPin)
  {
  }

  /** The steps a flow can be on, starting from one of the two first screens. */
  ghost predicate Reachable(t: WalletPasswordType, path: seq<(string, bool)>)
    decreases |path|
  {
    if path == [] then t == InitPinStep1 || t == ChangePinStep1
    else
      var (pin, verified) := path[|path| - 1];
      exists s :: Reachable(s, path[..|path| - 1]) && NextScreen(s, pin, verified) == Some(t)
  }

  /** The screen pushed after input (or, on the verify screen, after a verification with that outcome). */
  function NextScreen(s: WalletPasswordType, pin: string, verified: bool): Option<WalletPasswordType> {
    if s == ChangePinStep1 then
      if verified then Some(VerifyOutcome(pin, true).next) else None
    else
      var a := Transition(s, pin);
      if a.Push? then Some(a.next) else None
  }

  /**
   * The change flow's new-PIN screen opens exactly after the old PIN was
   * verified on the first change screen, and it carries that PIN.
   */
  lemma OnlyVerificationOpensNewPinScreen(s: WalletPasswordType, pin: string, verified: bool, o: string)
    ensures NextScreen(s, pin, verified) == Some(ChangePinStep2(o)) <==> s == ChangePinStep1 && verified && o == pin
  {
    if s != ChangePinStep1 {
      VerifyGuardsNewPinScreen(s, pin);
    }
  }

  /** Every reachable screen remembers only PINs that passed the simplicity rule. */
  lemma {:induction false} ReachableRemembersSimplePinsOnly(t: WalletPasswordType, path: seq<(string, bool)>)
    requires Reachable(t, path)
    ensures RemembersSimplePinsOnly(t)
    decreases |path|
  {
    if path != [] {
      var (pin, verified) := path[|path| - 1];
      var s :| Reachable(s, path[..|path| - 1]) && NextScreen(s, pin, verified) == Some(t);
      ReachableRemembersSimplePinsOnly(s, path[..|path| - 1]);
      if s != ChangePinStep1 {
        TransitionKeepsRemembered(s, pin);
      }
    }
  }

  /** So no reachable screen ever submits a too-simple PIN. */
  lemma ReachableNeverSubmitsTooSimple(t: WalletPasswordType, path: seq<(string, bool)>, pin: string)
    requires Reachable(t, path)
    requires Transition(t, pin).UpdatePin?
    ensures !TooSimple(pin)
  {
    ReachableRemembersSimplePinsOnly(t, path);
    UpdatedPinNeverTooSimple(t, pin);
  }

  /**
   * The PIN a completed change keeps for biometric payment (the confirmed
   * PIN of the last change screen) is never too simple on a reachable screen.
   */
  lemma KeychainPinNeverTooSimple(t: WalletPasswordType, path: seq<(string, bool)>, pin: string)
    requires Reachable(t, path) && t.ChangePinStep4?
    requires Transition(t, pin).UpdatePin?
    ensures !TooSimple(t.previous)
  {
    ReachableNeverSubmitsTooSimple(t, path, pin);
    UpdatePinOnlyFromLastStep(t, pin);
  }

  // ---------------------------------------------------------------------
  // Navigation animations

  datatype PushAnimation = Present | PushIn
  datatype PopAnimation = Dismiss | PopOut

  function PushAnimationOf(t: WalletPasswordType): PushAnimation {
    if t.ChangePinStep1? || t.InitPinStep1? then Present else PushIn
  }

  function PopAnimationOf(t: WalletPasswordType): PopAnimation {
    if t.ChangePinStep1? || t.InitPinStep1? then Dismiss else PopOut
  }

  /** A screen presented from below is dismissed downwards, and a pushed screen pops; only the first screens are presented. */
  lemma AnimationsPair(t: WalletPasswordType)
    ensures PushAnimationOf(t) == Present <==> PopAnimationOf(t) == Dismiss
    ensures PushAnimationOf(t) == Present <==> t == InitPinStep1 || t == ChangePinStep1
  {
  }

  /** Every screen the flow itself pushes slides in as a push. */
  lemma PushedScreensSlideIn(s: WalletPasswordType, pin: string, verified: bool)
    requires NextScreen(s, pin, verified).Some?
    ensures PushAnimationOf(NextScreen(s, pin, verified).value) == PushIn
    ensures PopAnimationOf(NextScreen(s, pin, verified).value) == PopOut
  {
  }

  // ---------------------------------------------------------------------
  // The screen

  class WalletPasswordScreen {
    const walletPasswordType: WalletPasswordType
    const numberOfDigits: nat
    var pinText: string
    var nextEnabled: bool
    var nextHidden: bool
    var nextBusy: bool

    /**
     * A fresh screen with an empty field and an idle next button. Whether the
     * button starts enabled and hidden is the layout's choice, passed in.
     */
    constructor(walletPasswordType: WalletPasswordType, numberOfDigits: nat, layoutEnabled: bool, layoutHidden: bool)
      ensures this.walletPasswordType == walletPasswordType && this.numberOfDigits == numberOfDigits
      ensures pinText == "" && !nextBusy
      ensures nextEnabled == layoutEnabled && nextHidden == layoutHidden
    {
      this.walletPasswordType := walletPasswordType;
      this.numberOfDigits := numberOfDigits;
      pinText := "";
      nextEnabled := layoutEnabled;
      nextHidden := layoutHidden;
      nextBusy := false;
    }

    /** The next button is enabled exactly when all digits are in. */
    method PinChanged()
      modifies this`nextEnabled
      ensures nextEnabled <==> |pinText| == numberOfDigits
    {
      nextEnabled := |pinText| == numberOfDigits;
    }

    /**
     * Input finished: ignored while busy; otherwise the screen takes the
     * action of its step for the PIN in the field. A rejected PIN clears the
     * field; a request shows the next button as busy.
     */
    method InputFinished() returns (action: PinAction)
      modifies this`pinText, this`nextHidden, this`nextBusy
      ensures old(nextBusy) ==> action == Ignored && unchanged(this)
      ensures !old(nextBusy) ==> action == Transition(walletPasswordType, old(pinText))
      ensures action == RejectedTooSimple ==> pinText == "" && nextBusy == old(nextBusy) && nextHidden == old(nextHidden)
      ensures (action.UpdatePin? || action.Verify?) ==> nextBusy && !nextHidden && pinText == old(pinText)
      ensures !(action.UpdatePin? || action.Verify? || action == RejectedTooSimple) ==> unchanged(this)
    {
      if nextBusy {
        return Ignored;
      }
      action := Transition(walletPasswordType, pinText);
      if action == RejectedTooSimple {
        pinText := "";
      } else if action.UpdatePin? || action.Verify? {
        nextHidden := false;
        nextBusy := true;
      }
    }

    /** The verification of the old PIN completed at time `now`; a success records the input time. */
    method VerifyFinished(pin: string, success: bool, now: int) returns (action: PinAction, writes: seq<PinStoreWrite>)
      modifies this`pinText, this`nextBusy
      ensures action == VerifyOutcome(pin, success) && !nextBusy
      ensures success ==> pinText == old(pinText) && writes == [RecordPinInputTime(now)]
      ensures !success ==> pinText == "" && writes == []
    {
      nextBusy := false;
      writes := [];
      if !success {
        pinText := "";
      } else {
        writes := [RecordPinInputTime(now)];
      }
      action := VerifyOutcome(pin, success);
    }

    /**
     * The PIN update completed at time `now`: on success the stores are
     * written and a success alert shows; a change also keeps the new PIN for
     * biometric payment when that is on, and resets the check interval. A
     * failure writes nothing and shows an error.
     */
    method UpdatePinFinished(success: bool, account: string, isBiometricPay: bool, now: int)
      returns (action: PinAction, writes: seq<PinStoreWrite>)
      modifies this`nextBusy
      ensures !nextBusy
      ensures success ==> action == UpdateSucceeded(walletPasswordType.ChangePinStep4?)
      ensures !success ==> action == ShowError && writes == []
      ensures success && !walletPasswordType.ChangePinStep4? ==> writes == [RecordPinInputTime(now), StoreAccount(account)]
      ensures success && walletPasswordType.ChangePinStep4? ==>
        writes == (if isBiometricPay then [StorePinInKeychain(walletPasswordType.previous)] else [])
                  + [ResetCheckPinInterval, RecordPinInputTime(now), StoreAccount(account)]
      ensures forall p :: StorePinInKeychain(p) in writes ==>
        walletPasswordType.ChangePinStep4? && isBiometricPay && p == walletPasswordType.previous
    {
      nextBusy := false;
      writes := [];
      if success {
        if walletPasswordType.ChangePinStep4? {
          if isBiometricPay {
            writes := [StorePinInKeychain(walletPasswordType.previous)];
          }
          writes := writes + [ResetCheckPinInterval];
        }
        writes := writes + [RecordPinInputTime(now), StoreAccount(account)];
        action := UpdateSucceeded(walletPasswordType.ChangePinStep4?);
      } else {
        action := ShowError;
      }
    }
  }
}
