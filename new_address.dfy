/**
 * The "new address" form of the wallet: the legality rule that enables the
 * save button, the normalisation of a scanned IBAN-style (ICAP) address into
 * a "0x" hex address, and the form controller that ties them together.
 */
module NewAddress {
  import opened Wrappers
  import opened Strings
  import opened Base36

  const LowerIbanPrefix := "iban:XE"
  const UpperIbanPrefix := "IBAN:XE"
  /** Shortest prefixed string that is converted at all. */
  const MinIbanLength := 20
  /** The account identifier starts after the prefix and two check digits. */
  const AccountOffset := 9

  predicate IsIban(str: string) {
    HasPrefix(str, LowerIbanPrefix) || HasPrefix(str, UpperIbanPrefix)
  }

  /** End of the account identifier: the first '?', or the end of the string. */
  function AccountEnd(str: string): nat {
    FirstIndexOf(str, '?')
  }

  // ---------------------------------------------------------------------
  // The normalisation as written: slicing from offset 9 to a '?' that comes
  // earlier is a range whose lower bound exceeds its upper bound, which traps.

  /** The prefixed, long-enough strings on which the slice traps. */
  predicate AccountSliceTraps(str: string) {
    IsIban(str) && |str| >= MinIbanLength && AccountEnd(str) < AccountOffset
  }

  /** The normalisation exactly as written; the trap is its precondition. */
  function StandardizedAddressAsWritten(str: string): (r: Option<string>)
    requires !AccountSliceTraps(str)
    ensures !IsIban(str) ==> r == Some(str)
    ensures IsIban(str) && |str| < MinIbanLength ==> r.None?
  {
    if !IsIban(str) then Some(str)
    else if |str| < MinIbanLength then None
    else
      match Base36ToHex(Lower(str[AccountOffset..AccountEnd(str)]))
      case None => None
      case Some(h) => Some("0x" + h)
  }

  /** A scanned string that passes both guards and puts '?' inside the check digits. */
  lemma QuestionMarkInCheckDigitsTraps()
    ensures AccountSliceTraps("iban:XE?000000000000")
  {
    var s := "iban:XE?000000000000";
    assert HasPrefix(s, LowerIbanPrefix) by {
      assert s[..|LowerIbanPrefix|] == LowerIbanPrefix;
    }
    assert s[7] == '?';
  }

  // ---------------------------------------------------------------------
  // The normalisation as intended: such a string is not a convertible address.

  /**
   * Normalises a scanned address. Non-prefixed strings are kept as they are;
   * a prefixed string becomes "0x" followed by the hex form of its base-36
   * account identifier, or None when it cannot be converted.
   */
  function StandardizedAddress(str: string): (r: Option<string>)
    ensures !IsIban(str) ==> r == Some(str)
    ensures IsIban(str) && |str| < MinIbanLength ==> r.None?
    ensures AccountSliceTraps(str) ==> r.None?
  {
    if AccountSliceTraps(str) then None else StandardizedAddressAsWritten(str)
  }

  /** The account identifier that a convertible prefixed string carries. */
  function AccountIdentifier(str: string): string
    requires IsIban(str) && |str| >= MinIbanLength && !AccountSliceTraps(str)
  {
    Lower(str[AccountOffset..AccountEnd(str)])
  }

  /** Wherever the code as written does not trap, the corrected version agrees with it. */
  lemma StandardizedAddressAgrees(str: string)
    requires !AccountSliceTraps(str)
    ensures StandardizedAddress(str) == StandardizedAddressAsWritten(str)
  {
  }

  /**
   * A prefixed string is converted exactly when it is long enough, its '?'
   * (if any) does not cut into the check digits, and its account identifier
   * is base 36 (in either case). The result is then "0x" followed by even-length
   * lower-case hex denoting the same number, with no leading zero byte.
   */
  lemma StandardizedIbanValue(str: string)
    requires IsIban(str)
    ensures StandardizedAddress(str).Some? <==>
      |str| >= MinIbanLength && AccountEnd(str) >= AccountOffset
      && IsBase36(Lower(str[AccountOffset..AccountEnd(str)]))
    ensures StandardizedAddress(str).Some? ==>
      var a := StandardizedAddress(str).value;
      var h := a[2..];
      && |a| >= 2 && a[..2] == "0x"
      && IsLowerHex(h) && |h| % 2 == 0
      && HexValue(h) == Value36(AccountIdentifier(str))
      && (|h| >= 2 ==> h[..2] != "00")
  {
    if |str| >= MinIbanLength && AccountEnd(str) >= AccountOffset {
      var acc := AccountIdentifier(str);
      Base36ToHexFailsIff(acc);
      if IsBase36(acc) {
        Base36ToHexPreservesValue(acc);
        var h := Base36ToHex(acc).value;
        assert StandardizedAddress(str).value[2..] == h;
      }
    }
  }

  /** Only the text after the prefix matters: the two spellings of the prefix convert alike. */
  lemma PrefixCaseIrrelevant(rest: string)
    ensures StandardizedAddress(LowerIbanPrefix + rest) == StandardizedAddress(UpperIbanPrefix + rest)
  {
    var a, b := LowerIbanPrefix + rest, UpperIbanPrefix + rest;
    assert a[..7] == LowerIbanPrefix && b[..7] == UpperIbanPrefix;
    assert a[7..] == b[7..];
    assert forall i :: 0 <= i < 7 ==> a[i] != '?' && b[i] != '?';
    assert FirstIndexOf(a, '?') == FirstIndexOf(b, '?') by {
      AccountEndFromSuffix(a, b, 7);
    }
    if |a| >= AccountOffset && AccountEnd(a) >= AccountOffset {
      assert a[AccountOffset..AccountEnd(a)] == b[AccountOffset..AccountEnd(b)];
    }
  }

  /** Two strings that agree from `k` on and have no '?' before `k` end their identifiers alike. */
  lemma AccountEndFromSuffix(a: string, b: string, k: nat)
    requires k <= |a| && |a| == |b| && a[k..] == b[k..]
    requires forall i :: 0 <= i < k ==> a[i] != '?' && b[i] != '?'
    ensures FirstIndexOf(a, '?') == FirstIndexOf(b, '?')
  {
    forall t | 0 <= t < |a| ensures a[t] == '?' <==> b[t] == '?' {
      if t >= k {
        assert a[t] == a[k..][t - k] && b[t] == b[k..][t - k];
      }
    }
  }

  // ---------------------------------------------------------------------
  // Legality of the form

  /** A field has a value once trimming leaves something. */
  predicate HasValue(text: string) {
    Trim(text) != []
  }

  /** The save button is enabled when address and label have values, and so does the memo unless none is needed. */
  predicate IsLegalAddress(address: string, labelValue: string, memo: string, noMemo: bool) {
    HasValue(address) && HasValue(labelValue) && (noMemo || HasValue(memo))
  }

  /** A field has a value exactly when it holds a non-whitespace character. */
  lemma IsLegalAddressIff(address: string, labelValue: string, memo: string, noMemo: bool)
    ensures IsLegalAddress(address, labelValue, memo, noMemo) <==>
      && (exists i :: 0 <= i < |address| && !IsWhitespace(address[i]))
      && (exists i :: 0 <= i < |labelValue| && !IsWhitespace(labelValue[i]))
      && (noMemo || exists i :: 0 <= i < |memo| && !IsWhitespace(memo[i]))
  {
    TrimEmptyIff(address);
    TrimEmptyIff(labelValue);
    TrimEmptyIff(memo);
  }

  /** Whether a text view accepts a replacement: a lone newline (the return key) is refused. */
  predicate ShouldChangeText(replacement: string) {
    replacement != "\n"
  }

  /**
   * Only the return key is refused: every other replacement, including a
   * pasted text that contains a line break, is accepted.
   */
  lemma OnlyReturnKeyRefused(replacement: string)
    ensures !ShouldChangeText(replacement) <==> |replacement| == 1 && replacement[0] == '\n'
    ensures ShouldChangeText("a\n") && ShouldChangeText("")
  {
    if |replacement| == 1 && replacement[0] == '\n' {
      assert replacement == "\n";
    }
  }

  // ---------------------------------------------------------------------
  // The form controller

  /** Which text view a QR scan fills. */
  datatype ScanDestination = NoDestination | AddressField | MemoField

  datatype AddressAction = Add | Update

  /** A saved address as it is shown when the form edits one. */
  datatype Address = Address(labelValue: string, destination: string, tag: string)

  /** What the save action hands to the PIN window. */
  datatype AddressRequest = AddressRequest(
    assetId: string, destination: string, tag: string, labelValue: string, pin: string, action: AddressAction)

  class NewAddressForm {
    const assetId: string
    /** The address being edited, if any. */
    const editing: Option<Address>
    var labelText: string
    var addressText: string
    var memoText: string
    const noMemo: bool
    var saveEnabled: bool
    var scanDestination: ScanDestination
    var shouldLayoutWithKeyboard: bool

    /**
     * Opening the form; an edited address pre-fills the three fields and
     * re-checks the save button. A new form keeps the button as the layout
     * sets it, passed in.
     */
    constructor(assetId: string, editing: Option<Address>, layoutSaveEnabled: bool)
      ensures this.assetId == assetId && this.editing == editing && !noMemo
      ensures editing.Some? ==>
        labelText == editing.value.labelValue && addressText == editing.value.destination
        && memoText == editing.value.tag
      ensures editing.None? ==> labelText == "" && addressText == "" && memoText == ""
      ensures editing.Some? ==> saveEnabled == IsLegalAddress(addressText, labelText, memoText, noMemo)
      ensures editing.None? ==> saveEnabled == layoutSaveEnabled
      ensures scanDestination == NoDestination && shouldLayoutWithKeyboard
    {
      this.assetId := assetId;
      this.editing := editing;
      noMemo := false;
      var l, d, m := "", "", "";
      if editing.Some? {
        l, d, m := editing.value.labelValue, editing.value.destination, editing.value.tag;
      }
      labelText, addressText, memoText := l, d, m;
      saveEnabled := if editing.Some? then IsLegalAddress(d, l, m, false) else layoutSaveEnabled;
      scanDestination := NoDestination;
      shouldLayoutWithKeyboard := true;
    }

    /** Re-evaluates the save button after any edit. */
    method CheckLabelAndAddress()
      modifies this`saveEnabled
      ensures saveEnabled == IsLegalAddress(addressText, labelText, memoText, noMemo)
    {
      saveEnabled := IsLegalAddress(addressText, labelText, memoText, noMemo);
    }

    method ScanAddress()
      modifies this`scanDestination
      ensures scanDestination == AddressField
    {
      scanDestination := AddressField;
    }

    method ScanMemo()
      modifies this`scanDestination
      ensures scanDestination == MemoField
    {
      scanDestination := MemoField;
    }

    /**
     * A recognised QR string fills the field the scan was started for: the
     * address field gets the normalised address (or the raw string when it
     * cannot be normalised), the memo field the raw string. The scan is then
     * over and the camera is told not to keep the string.
     */
    method ShouldRecognizeString(s: string) returns (keep: bool)
      modifies this`addressText, this`memoText, this`saveEnabled, this`scanDestination
      ensures !keep
      ensures scanDestination == NoDestination
      ensures old(scanDestination) == AddressField ==>
        addressText == StandardizedAddress(s).GetOr(s) && memoText == old(memoText)
      ensures old(scanDestination) == MemoField ==>
        memoText == s && addressText == old(addressText)
      ensures old(scanDestination) == NoDestination ==>
        addressText == old(addressText) && memoText == old(memoText) && saveEnabled == old(saveEnabled)
      ensures old(scanDestination) != NoDestination ==>
        saveEnabled == IsLegalAddress(addressText, labelText, memoText, noMemo)
    {
      if scanDestination == AddressField {
        addressText := StandardizedAddress(s).GetOr(s);
        CheckLabelAndAddress();
      } else if scanDestination == MemoField {
        memoText := s;
        CheckLabelAndAddress();
      }
      scanDestination := NoDestination;
      keep := false;
    }

    /**
     * Saving hands the trimmed field values to the PIN window, as an update
     * when an address is being edited and as an addition otherwise. An illegal
     * form does nothing.
     */
    method Save() returns (request: Option<AddressRequest>)
      modifies this`shouldLayoutWithKeyboard
      ensures request.Some? <==> IsLegalAddress(addressText, labelText, memoText, noMemo)
      ensures request.None? ==> shouldLayoutWithKeyboard == old(shouldLayoutWithKeyboard)
      ensures request.Some? ==> !shouldLayoutWithKeyboard && request.value == SaveRequest(
        assetId, addressText, memoText, labelText, if editing.Some? then Update else Add)
    {
      if !IsLegalAddress(addressText, labelText, memoText, noMemo) {
        return None;
      }
      shouldLayoutWithKeyboard := false;
      request := Some(SaveRequest(assetId, addressText, memoText, labelText,
        if editing.Some? then Update else Add));
    }

    /** The PIN window closed: on success the form is left, otherwise editing resumes. */
    method SaveDismissed(success: bool) returns (leaveForm: bool)
      modifies this`shouldLayoutWithKeyboard
      ensures leaveForm == success
      ensures success ==> shouldLayoutWithKeyboard == old(shouldLayoutWithKeyboard)
      ensures !success ==> shouldLayoutWithKeyboard
    {
      if !success {
        shouldLayoutWithKeyboard := true;
      }
      leaveForm := success;
    }
  }

  /** The request built from the raw field texts: trimmed values and an empty PIN. */
  function SaveRequest(assetId: string, address: string, memo: string, labelValue: string, action: AddressAction): AddressRequest {
    AddressRequest(assetId, Trim(address), Trim(memo), Trim(labelValue), "", action)
  }

  /**
   * A request built from a legal form carries a non-empty destination and
   * label with no whitespace at either end, an empty PIN, and a memo that is
   * non-empty unless none is needed.
   */
  lemma SaveRequestWellFormed(assetId: string, address: string, memo: string, labelValue: string,
                              noMemo: bool, action: AddressAction)
    requires IsLegalAddress(address, labelValue, memo, noMemo)
    ensures var q := SaveRequest(assetId, address, memo, labelValue, action);
      && q.destination != [] && !IsWhitespace(q.destination[0]) && !IsWhitespace(q.destination[|q.destination| - 1])
      && q.labelValue != [] && !IsWhitespace(q.labelValue[0]) && !IsWhitespace(q.labelValue[|q.labelValue| - 1])
      && (noMemo || q.tag != [])
      && q.pin == "" && q.assetId == assetId && q.action == action
  {
    TrimEdges(address);
    TrimEdges(labelValue);
  }

  /** A non-empty trimmed string starts and ends with a non-whitespace character. */
  lemma TrimEdges(s: string)
    requires Trim(s) != []
    ensures !IsWhitespace(Trim(s)[0]) && !IsWhitespace(Trim(s)[|Trim(s)| - 1])
  {
    var t := TrimStart(s);
    var r := Trim(s);
    assert r == t[..|r|];
    assert r[0] == t[0];
  }
}
