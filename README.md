# Mixin iOS client core, modelled in Dafny

This project models six pieces of the Mixin iOS client (fox-one/reborn-ios) and proves properties about them:

- **WebSocket service** (`websocket.dfy`). This is the client's connection to the Mixin server.
  - It is a three-state machine: disconnected, connecting and connected.
  - It keeps a table of handlers that wait for the reply to a request id.
  - It checks the handshake for clock skew, giving one of three verdicts: accept, reconnect on a stale signing date, or clock skew.
  - It dispatches inbound frames: it invokes the waiting handler, logs out on a 401 error, and receives or acknowledges data.
  - Its reconnect tears down and fails every waiting handler with a timeout. It then connects at once when logged in and reachable and either the network was unreachable at the last connection or that connection is at least a second old. Otherwise it waits for the network to become reachable.
  - The pending-messages request restores the jobs once. When it fails, its own two-second timer asks again, but only while the socket reports a connection.
  - The class `WebSocketService` keeps the service's fields. What the service does to the world outside it goes into a ghost effect log. Each method states the log tail it appends, as a function of its inputs and the old state.
- **Wallet PIN screens** (`wallet_password.dfy`). These cover the create flow (three steps) and the change flow (four steps):
  - the "too simple" rule;
  - the confirmation and mismatch behaviour;
  - the verify step;
  - the navigation animations.
- **Gallery item controller** (`gallery.dfy`). This is the paged list of a conversation's media messages:
  - fetches at either end;
  - the loading and done flags;
  - in-place updates, re-statuses and removals when a message changes.
- **New-address form** (`new_address.dfy`, `base36.dfy`). This covers:
  - the rule that enables the save button;
  - the trimming of field values;
  - the normalisation of a scanned ICAP (`iban:XE…`) address into `0x` plus hex, via the byte-array base-36 to base-16 conversion `base36to16`.
- **Conversation search items** of the share extension (`conversation_search.dfy`):
  - construction from a conversation or a user;
  - keyword matching;
  - equality and hashing by conversation id.
- **External sharing** (`external_sharing.dfy`): the outgoing message built for shared content.

`wrappers.dfy` (Option) and `strings.dfy` (ASCII lower-casing, trimming, prefix, first index in a sequence, Foundation's substring test) are shared helpers.

Things the model takes as parameters:

- **Times:** all are integer nanoseconds. The server reports nanoseconds, and the 300-second skew test on exact seconds equals the test on nanoseconds (`WebSocket.SkewInSeconds`). The code computes the skew in `Double` seconds (`WebSocketService.swift:183-186`). Its rounding near the 300-second edge is not modelled, and neither is the rounding near the 60-second edge.
- **Outside state:** login state, reachability, the socket's own view of its connection, whether a frame encodes, frame decoding (`Option<BlazeMessage>`), server time, the generated UUID and the store's conversation-id derivation.

Two behaviours of the code that a reader might not expect:

- `disconnect()` (`WebSocketService.swift:96-110`) empties the handler table without invoking any handler. `WebSocket.WebSocketService.Disconnect` states exactly that.
- A blocking request that gets no response within five seconds (`WebSocketService.swift:157-163`) only throws. Its handler stays registered.

## Model

| member | source | states |
|---|---|---|
| Strings.Lower | MixinShare/ConversationSearchItem.swift:44 | the character-by-character recursion keeps the length and lowers each character where it stands |
| Strings.LowerFoldsCapitals | MixinShare/ConversationSearchItem.swift:44 | exactly the capitals change, each into the small letter at the same place in the alphabet; every other character stays |
| Strings.LowerAppend | MixinShare/ConversationSearchItem.swift:44 | lowering a concatenation lowers each part |
| Strings.LowerIsLower | Mixin/UserInterface/Controllers/Wallet/NewAddressViewController.swift:181 | a lowered string has no capital letter, and lowering is idempotent |
| Strings.FirstIndexOf | Mixin/UserInterface/Controllers/Wallet/NewAddressViewController.swift:178 | the result is the first position of the element, or the length when it does not occur; the gallery's `firstIndex(of:)` uses it too |
| Strings.TrimStart | Mixin/UserInterface/Controllers/Wallet/NewAddressViewController.swift:19-27 | the result is a suffix with no leading whitespace, and only whitespace was cut |
| Strings.TrimEnd | Mixin/UserInterface/Controllers/Wallet/NewAddressViewController.swift:19-27 | the result is a prefix with no trailing whitespace, and only whitespace was cut |
| Strings.TrimEmptyIff | Mixin/UserInterface/Controllers/Wallet/NewAddressViewController.swift:19-29 | trimming gives the empty string exactly when every character is whitespace |
| Strings.Contains | MixinShare/ConversationSearchItem.swift:43-45 | the scan is true exactly when the keyword is non-empty and occurs as a contiguous run, as Foundation's `contains` finds no empty string |
| Base36.AlphabetInOrder | Mixin/UserInterface/Controllers/Wallet/NewAddressViewController.swift:191 | the alphabet has 36 digits listed in order of value |
| Base36.DigitValueInvertsAlphabet | Mixin/UserInterface/Controllers/Wallet/NewAddressViewController.swift:191-200 | a digit's value indexes the alphabet back to that digit, and every alphabet position has its own index as value |
| Base36.BuildAlphabetMap | Mixin/UserInterface/Controllers/Wallet/NewAddressViewController.swift:193-200 | the lookup table has exactly the 36 digits as keys, each mapped to its value |
| Base36.CanonicalBytes | Mixin/UserInterface/Controllers/Wallet/NewAddressViewController.swift:203-219 | the bytes are canonical (no zero top byte) and their little-endian value is the number |
| Base36.CanonicalUnique | Mixin/UserInterface/Controllers/Wallet/NewAddressViewController.swift:203-219 | canonical bytes are the only canonical representation of their value |
| Base36.ReverseBytes | Mixin/UserInterface/Controllers/Wallet/NewAddressViewController.swift:220 | reversing keeps bytes bytes and puts the most significant byte first |
| Base36.BigEndianOfReverse | Mixin/UserInterface/Controllers/Wallet/NewAddressViewController.swift:220 | the reversed bytes read big-endian give the same value |
| Base36.HexAlphabetInOrder | Mixin/UserInterface/Controllers/Wallet/NewAddressViewController.swift:220 | the sixteen hex digits are listed in order of value |
| Base36.HexByteAppended | Mixin/UserInterface/Controllers/Wallet/NewAddressViewController.swift:220 | printing one more byte as two hex digits multiplies the hex value by 256 and adds the byte |
| Base36.EncodeHexValue | Mixin/UserInterface/Controllers/Wallet/NewAddressViewController.swift:220 | printing the bytes gives two lower-case hex digits per byte, denoting the big-endian value |
| Base36.LeadingDigitsNotZero | Mixin/UserInterface/Controllers/Wallet/NewAddressViewController.swift:220 | a non-zero first byte never prints as "00" |
| Base36.CanonicalHex | Mixin/UserInterface/Controllers/Wallet/NewAddressViewController.swift:220 | the printed canonical bytes are lower-case hex, two digits per byte, with value n and no leading "00" |
| Base36.Base36ToHexFailsIff | Mixin/UserInterface/Controllers/Wallet/NewAddressViewController.swift:204-207 | the conversion fails exactly when some character is not a base-36 digit |
| Base36.Base36ToHexPreservesValue | Mixin/UserInterface/Controllers/Wallet/NewAddressViewController.swift:202-221 | a successful conversion is even-length lower-case hex denoting the base-36 value, with no leading zero byte |
| Base36.ZerosConvertToEmpty | Mixin/UserInterface/Controllers/Wallet/NewAddressViewController.swift:202-221 | a string of zero digits, and the empty string, converts to the empty string |
| Base36.MultiplyAdd | Mixin/UserInterface/Controllers/Wallet/NewAddressViewController.swift:205-218 | the carry loops leave canonical bytes whose value is 36 times the old value plus the digit |
| Base36.Base36To16 | Mixin/UserInterface/Controllers/Wallet/NewAddressViewController.swift:202-221 | the byte-array loop returns exactly the reference conversion `Base36ToHex`, including None on a bad digit |
| NewAddress.StandardizedAddressAsWritten | Mixin/UserInterface/Controllers/Wallet/NewAddressViewController.swift:170-185 | unprefixed strings are kept and short prefixed strings are refused; the slice trap is its precondition |
| NewAddress.QuestionMarkInCheckDigitsTraps | Mixin/UserInterface/Controllers/Wallet/NewAddressViewController.swift:174-179 | a 20-character prefixed string with '?' at offset 7 passes both guards and reaches the trapping slice |
| NewAddress.StandardizedAddress | Mixin/UserInterface/Controllers/Wallet/NewAddressViewController.swift:170-185 | unprefixed strings are kept; short prefixed strings, and those whose '?' cuts into the check digits, give None |
| NewAddress.StandardizedAddressAgrees | Mixin/UserInterface/Controllers/Wallet/NewAddressViewController.swift:170-185 | wherever the code as written does not trap, the corrected normalisation gives the same result |
| NewAddress.StandardizedIbanValue | Mixin/UserInterface/Controllers/Wallet/NewAddressViewController.swift:174-184 | a prefixed string converts exactly when it is long enough, its '?' is late enough and its identifier is base 36; the result is "0x" plus hex of the identifier's value |
| NewAddress.PrefixCaseIrrelevant | Mixin/UserInterface/Controllers/Wallet/NewAddressViewController.swift:171 | the lower-case and upper-case prefixes convert alike |
| NewAddress.IsLegalAddressIff | Mixin/UserInterface/Controllers/Wallet/NewAddressViewController.swift:19-30 | the form is legal exactly when address, label and (unless no memo is needed) memo each hold a non-whitespace character |
| NewAddress.OnlyReturnKeyRefused | Mixin/UserInterface/Controllers/Wallet/NewAddressViewController.swift:136-138 | only the lone newline is refused; pasted text with a line break and the empty replacement are accepted |
| NewAddress.SaveRequestWellFormed | Mixin/UserInterface/Controllers/Wallet/NewAddressViewController.swift:104-110 | a legal form yields a request whose destination and label are non-empty and trimmed, with an empty PIN |
| NewAddress.NewAddressForm.constructor | Mixin/UserInterface/Controllers/Wallet/NewAddressViewController.swift:47-51 | an edited address pre-fills the fields and the save button reflects legality; a new form keeps the layout's initial button state, which is a parameter |
| NewAddress.NewAddressForm.CheckLabelAndAddress | Mixin/UserInterface/Controllers/Wallet/NewAddressViewController.swift:84-86 | the save button is enabled exactly when the form is legal |
| NewAddress.NewAddressForm.ScanAddress | Mixin/UserInterface/Controllers/Wallet/NewAddressViewController.swift:88-94 | the next scan fills the address field |
| NewAddress.NewAddressForm.ScanMemo | Mixin/UserInterface/Controllers/Wallet/NewAddressViewController.swift:96-102 | the next scan fills the memo field |
| NewAddress.NewAddressForm.ShouldRecognizeString | Mixin/UserInterface/Controllers/Wallet/NewAddressViewController.swift:153-164 | the scanned field gets the normalised address (or the raw string) or the memo; the other field is kept, the scan ends and the string is not kept |
| NewAddress.NewAddressForm.Save | Mixin/UserInterface/Controllers/Wallet/NewAddressViewController.swift:104-111 | a request is made exactly when the form is legal, as an update when editing and as an addition otherwise |
| NewAddress.NewAddressForm.SaveDismissed | Mixin/UserInterface/Controllers/Wallet/NewAddressViewController.swift:111-121 | the form is left on success; otherwise keyboard layout resumes |
| WalletPassword.OnlyVerificationOpensNewPinScreen | Mixin/UserInterface/Controllers/Wallet/WalletPasswordViewController.swift:200-217 | the change flow's new-PIN screen opens exactly after a successful verification on the first change screen, and it carries the verified PIN |
| WalletPassword.TooSimpleOnlyWhenChoosing | Mixin/UserInterface/Controllers/Wallet/WalletPasswordViewController.swift:156-165 | a PIN is rejected as too simple exactly on the two choosing screens when it is "123456" or has fewer than 3 distinct characters |
| WalletPassword.ConfirmationMatches | Mixin/UserInterface/Controllers/Wallet/WalletPasswordViewController.swift:167-254 | a confirming screen advances exactly on a matching PIN; on a mismatch only the last change screen pops one screen |
| WalletPassword.UpdatePinOnlyFromLastStep | Mixin/UserInterface/Controllers/Wallet/WalletPasswordViewController.swift:180-248 | a PIN update is issued only from the last screen of a flow, with the old PIN exactly when changing |
| WalletPassword.OldPinCarriedForward | Mixin/UserInterface/Controllers/Wallet/WalletPasswordViewController.swift:218-234 | the old PIN passes unchanged through the change screens into the update |
| WalletPassword.VerifyGuardsNewPinScreen | Mixin/UserInterface/Controllers/Wallet/WalletPasswordViewController.swift:200-217 | input never pushes the new-PIN screen directly; only the verify screen asks for verification |
| WalletPassword.TransitionKeepsRemembered | Mixin/UserInterface/Controllers/Wallet/WalletPasswordViewController.swift:156-229 | pushing a screen keeps "every remembered PIN passed the simplicity rule" |
| WalletPassword.FlowStartsRemembering | Mixin/UserInterface/Controllers/Wallet/WalletPasswordViewController.swift:200-212 | the first screens and the screen after verification satisfy the invariant |
| WalletPassword.UpdatedPinNeverTooSimple | Mixin/UserInterface/Controllers/Wallet/WalletPasswordViewController.swift:156-248 | under the invariant, an update never carries a too-simple PIN |
| WalletPassword.ReachableRemembersSimplePinsOnly | Mixin/UserInterface/Controllers/Wallet/WalletPasswordViewController.swift:150-255 | every screen reachable from a first screen keeps the invariant |
| WalletPassword.ReachableNeverSubmitsTooSimple | Mixin/UserInterface/Controllers/Wallet/WalletPasswordViewController.swift:150-255 | no reachable screen ever submits a too-simple PIN |
| WalletPassword.KeychainPinNeverTooSimple | Mixin/UserInterface/Controllers/Wallet/WalletPasswordViewController.swift:234-243 | the PIN a completed change keeps for biometric payment is never too simple on a reachable screen |
| WalletPassword.AnimationsPair | Mixin/UserInterface/Controllers/Wallet/WalletPasswordViewController.swift:126-144 | present pairs with dismiss and push with pop; only the two first screens are presented |
| WalletPassword.PushedScreensSlideIn | Mixin/UserInterface/Controllers/Wallet/WalletPasswordViewController.swift:128-144 | every screen the flow pushes animates as a push and a pop |
| WalletPassword.WalletPasswordScreen.constructor | Mixin/UserInterface/Controllers/Wallet/WalletPasswordViewController.swift:78-83 | a fresh screen of the given step with an empty field and an idle next button; whether the layout enables or hides the button is a parameter |
| WalletPassword.WalletPasswordScreen.PinChanged | Mixin/UserInterface/Controllers/Wallet/WalletPasswordViewController.swift:70-72 | the next button is enabled exactly when all digits are in |
| WalletPassword.WalletPasswordScreen.InputFinished | Mixin/UserInterface/Controllers/Wallet/WalletPasswordViewController.swift:150-255 | ignored while busy; otherwise the step's transition, clearing on rejection and showing busy for a request |
| WalletPassword.WalletPasswordScreen.VerifyFinished | Mixin/UserInterface/Controllers/Wallet/WalletPasswordViewController.swift:203-217 | the button stops being busy; success pushes the new-PIN screen and records the input time; failure clears the field, shows an error and writes nothing |
| WalletPassword.WalletPasswordScreen.UpdatePinFinished | Mixin/UserInterface/Controllers/Wallet/WalletPasswordViewController.swift:184-248 | the button stops being busy; success writes the input time and the account, a change first keeps the PIN for biometric payment when that is on and resets the check interval, and alerts "set" or "changed"; failure writes nothing and shows an error |
| Gallery.LastIndex | Mixin/UserInterface/Controllers/Chat/Model/GalleryItemModelController.swift:220 | the last position of the item, or the length exactly when it is absent |
| Gallery.IndexOfMessage | Mixin/UserInterface/Controllers/Chat/Model/GalleryItemModelController.swift:188 | the first position holding the message id, or the length |
| Gallery.IndexOfMessageFound | Mixin/UserInterface/Controllers/Chat/Model/GalleryItemModelController.swift:154 | the look-up finds a position exactly when some item has that message id |
| Gallery.WithoutFirstMessageAt | Mixin/UserInterface/Controllers/Chat/Model/GalleryItemModelController.swift:197-202 | removal drops exactly the item at the first index of the message, or nothing |
| Gallery.WithFirstMediaStatusAt | Mixin/UserInterface/Controllers/Chat/Model/GalleryItemModelController.swift:187-195 | a status update changes only the item at the first index of the message |
| Gallery.WithFirstReplacedAt | Mixin/UserInterface/Controllers/Chat/Model/GalleryItemModelController.swift:165-169 | a message update replaces only the item at the first index of the message |
| Gallery.WithoutFirstMessageCounts | Mixin/UserInterface/Controllers/Chat/Model/GalleryItemModelController.swift:197-202 | removing a present message shortens the list by one and loses exactly that item; an absent one changes nothing |
| Gallery.WithFirstMediaStatusKeeps | Mixin/UserInterface/Controllers/Chat/Model/GalleryItemModelController.swift:187-195 | a status update keeps the length, every message id and every other item |
| Gallery.GalleryItemModelController.constructor | Mixin/UserInterface/Controllers/Chat/Model/GalleryItemModelController.swift:5-31 | an empty list for the empty conversation with all flags clear |
| Gallery.GalleryItemModelController.SetConversationId | Mixin/UserInterface/Controllers/Chat/Model/GalleryItemModelController.swift:5-10 | a new conversation id clears both done flags |
| Gallery.GalleryItemModelController.FetchMoreItemsBefore | Mixin/UserInterface/Controllers/Chat/Model/GalleryItemModelController.swift:102-113 | a page of 20 before the first item is requested exactly when that end is neither done nor loading and the list is non-empty |
| Gallery.GalleryItemModelController.FetchMoreItemsAfter | Mixin/UserInterface/Controllers/Chat/Model/GalleryItemModelController.swift:125-136 | a page of 20 after the last item is requested exactly when that end is neither done nor loading and the list is non-empty |
| Gallery.GalleryItemModelController.FetchBeforeCompleted | Mixin/UserInterface/Controllers/Chat/Model/GalleryItemModelController.swift:114-121 | for the same conversation the page goes in front and a short page marks the end; otherwise nothing changes |
| Gallery.GalleryItemModelController.FetchAfterCompleted | Mixin/UserInterface/Controllers/Chat/Model/GalleryItemModelController.swift:137-144 | for the same conversation the page goes at the back and a short page marks the end; otherwise nothing changes |
| Gallery.GalleryItemModelController.DequeueWith | Mixin/UserInterface/Controllers/Chat/Model/GalleryItemModelController.swift:33-56 | the item is at the returned index and `dequeue(of:)` there gives it back (the forced look-up cannot fail); an unlisted item replaces the list; pages are requested exactly near the ends |
| Gallery.GalleryItemModelController.ViewControllerBefore | Mixin/UserInterface/Controllers/Chat/Model/GalleryItemModelController.swift:208-217 | the page left of a listed item is the item before its first occurrence; near the front a page is requested |
| Gallery.GalleryItemModelController.ViewControllerAfter | Mixin/UserInterface/Controllers/Chat/Model/GalleryItemModelController.swift:219-228 | the page right of a listed item is the item after its last occurrence; near the back a page is requested |
| Gallery.GalleryItemModelController.UpdateMessageBegin | Mixin/UserInterface/Controllers/Chat/Model/GalleryItemModelController.swift:153-157 | a reload is asked for exactly when the message is listed |
| Gallery.GalleryItemModelController.UpdateMessageCompleted | Mixin/UserInterface/Controllers/Chat/Model/GalleryItemModelController.swift:158-176 | the reloaded item replaces the first item of its message, as the reference update says |
| Gallery.GalleryItemModelController.UpdateMediaStatus | Mixin/UserInterface/Controllers/Chat/Model/GalleryItemModelController.swift:187-195 | the in-place status update equals the reference update |
| Gallery.GalleryItemModelController.RemoveItem | Mixin/UserInterface/Controllers/Chat/Model/GalleryItemModelController.swift:197-202 | the in-place removal equals the reference removal |
| Gallery.GalleryItemModelController.ConversationDidChange | Mixin/UserInterface/Controllers/Chat/Model/GalleryItemModelController.swift:84-100 | other conversations are ignored; each action updates, re-statuses, removes or asks for a reload |
| ConversationSearch.FromConversation | MixinShare/ConversationSearchItem.swift:15-30 | an item is made exactly for contact and group conversations |
| ConversationSearch.FromConversationFields | MixinShare/ConversationSearchItem.swift:15-30 | the item keeps the category, is named after the owner (contact) or the group, and copies the other fields |
| ConversationSearch.FromUserIsContactItem | MixinShare/ConversationSearchItem.swift:15-41 | a user and the contact conversation with that user (its derived id, the user as owner) give the same item up to the icon, so they are equal and hash alike |
| ConversationSearch.Matches | MixinShare/ConversationSearchItem.swift:43-45 | an item matches exactly when the keyword is non-empty and occurs in the lower-cased name |
| ConversationSearch.MatchesBasics | MixinShare/ConversationSearchItem.swift:43-45 | the empty keyword matches no item; a non-empty name matches its own lower-cased form |
| ConversationSearch.MatchesIgnoresNameCase | MixinShare/ConversationSearchItem.swift:43-45 | the case of the name does not change a match |
| ConversationSearch.MatchesShorterKeyword | MixinShare/ConversationSearchItem.swift:43-45 | any non-empty piece of a matching keyword also matches |
| ConversationSearch.SameItemIsEquivalence | MixinShare/ConversationSearchItem.swift:48-54 | equality by conversation id is reflexive, symmetric and transitive |
| ConversationSearch.EqualItemsHashAlike | MixinShare/ConversationSearchItem.swift:56-62 | equal items hash alike, whatever the string hasher |
| ConversationSearch.EqualityIgnoresOtherFields | MixinShare/ConversationSearchItem.swift:50-52 | items that differ only outside the conversation id are equal |
| ExternalSharing.KindOfCategory | Mixin/UserInterface/Controllers/Chat/Model/Message+ExternalSharing.swift:13-37 | a category recognised as a kind of content is that kind's category |
| ExternalSharing.CategoryRoundTrip | Mixin/UserInterface/Controllers/Chat/Model/Message+ExternalSharing.swift:13-37 | the category tells the kind of content back |
| ExternalSharing.CategoryInjective | Mixin/UserInterface/Controllers/Chat/Model/Message+ExternalSharing.swift:13-37 | two contents share a category exactly when they are the same kind |
| ExternalSharing.CreatedMessageHeader | Mixin/UserInterface/Controllers/Chat/Model/Message+ExternalSharing.swift:6-12 | a sending message of the current user in the context's conversation (or ""), with a lower-case id and the content's category |
| ExternalSharing.CreatedMessageFields | Mixin/UserInterface/Controllers/Chat/Model/Message+ExternalSharing.swift:13-37 | each kind fills exactly its own fields with its own data; an image is pending |
| WebSocket.HandshakeInSeconds | MixinServices/MixinServices/Services/WebSocket/Service/WebSocketService.swift:183-195 | the verdict, computed on seconds: no or non-positive server time, or a distance of at most 300 s, is accepted; otherwise retried when the signing date is over 60 s old, else clock skew |
| WebSocket.SkewInSeconds | MixinServices/MixinServices/Services/WebSocket/Service/WebSocketService.swift:185-186 | the nanosecond test equals "more than 300 seconds apart" |
| WebSocket.HandshakeScenarios | MixinServices/MixinServices/Services/WebSocket/Service/WebSocketService.swift:183-196 | no server time, zero, and the tolerance edge are accepted; concrete skewed cases give the two other verdicts |
| WebSocket.ShouldConnectImmediately | MixinServices/MixinServices/Services/WebSocket/Service/WebSocketService.swift:310-312 | reconnects at once only when reachable and logged in; always after an unreachable connection; never within the debounce |
| WebSocket.DebounceDefersReconnect | MixinServices/MixinServices/Services/WebSocket/Service/WebSocketService.swift:310-312 | within a second of a reachable connection there is no immediate reconnect; at one second there is |
| WebSocket.AcceptTail | MixinServices/MixinServices/Services/WebSocket/Service/WebSocketService.swift:203-211 | the offset job and the refresh date are always set; the asset and prekey jobs exactly when the last refresh is over two hours old |
| WebSocket.ConnectEffects | MixinServices/MixinServices/Services/WebSocket/Service/WebSocketService.swift:46-94 | a socket is opened exactly when all guards pass; the disconnect is announced exactly when logged in and unreachable |
| WebSocket.ShutdownEffects | MixinServices/MixinServices/Services/WebSocket/Service/WebSocketService.swift:302-308 | jobs are suspended and the disconnect announced; the failure close happens exactly when told and a socket exists; no job is cancelled |
| WebSocket.HandlerEffects | MixinServices/MixinServices/Services/WebSocket/Service/WebSocketService.swift:337-356 | the pending-messages handler restores jobs exactly on success while due, and schedules a retry in 2 s exactly on failure |
| WebSocket.HandlerEffectsDeliverNothing | MixinServices/MixinServices/Services/WebSocket/Service/WebSocketService.swift:337-356 | a handler never invokes another handler |
| WebSocket.FrameEffects | MixinServices/MixinServices/Services/WebSocket/Service/WebSocketService.swift:238-258 | a frame logs out exactly on a 401 "error" frame while the clock is not known to be skewed |
| WebSocket.InvocationDeliversOnce | MixinServices/MixinServices/Services/WebSocket/Service/WebSocketService.swift:234-248 | an invocation delivers to its id exactly once, with its result |
| WebSocket.DispatchDeliversOnce | MixinServices/MixinServices/Services/WebSocket/Service/WebSocketService.swift:226-260 | a frame delivers exactly once to the handler waiting for its id, none when none waits; an error frame fails it with the error code, any other frame succeeds with itself |
| WebSocket.DispatchLogoutIff | MixinServices/MixinServices/Services/WebSocket/Service/WebSocketService.swift:238-243 | a frame's dispatch logs out exactly under the logout condition |
| WebSocket.TimeoutEffectsDeliver | MixinServices/MixinServices/Services/WebSocket/Service/WebSocketService.swift:298-300 | timing out delivers to exactly the handlers in order, each a timeout failure; the only other effect is the pending-messages retry |
| WebSocket.TearDownDeliversOrder | MixinServices/MixinServices/Services/WebSocket/Service/WebSocketService.swift:297-308 | a teardown delivers to exactly the handlers of its order |
| WebSocket.TearDownFailsHandlers | MixinServices/MixinServices/Services/WebSocket/Service/WebSocketService.swift:297-306 | every teardown delivery is a timeout failure; the failure close happens exactly when told and a socket exists |
| WebSocket.ReconnectDeliversOrder | MixinServices/MixinServices/Services/WebSocket/Service/WebSocketService.swift:295-321 | a reconnect delivers exactly once to every handler that was waiting, each a timeout failure, and closes with the failure code exactly when told |
| WebSocket.WebSocketService.constructor | MixinServices/MixinServices/Services/WebSocket/Service/WebSocketService.swift:27-44 | disconnected, no socket, no handlers, restoration due, no deferred connect |
| WebSocket.WebSocketService.IsConnected | MixinServices/MixinServices/Services/WebSocket/Service/WebSocketService.swift:14-16 | connected exactly in the connected state; a consistent connected service has a socket opened on a reachable network |
| WebSocket.WebSocketService.Connect | MixinServices/MixinServices/Services/WebSocket/Service/WebSocketService.swift:46-94 | appends the connect effects; when the guards pass, moves to connecting with a reachable socket and both dates stamped now; otherwise changes no field |
| WebSocket.WebSocketService.Disconnect | MixinServices/MixinServices/Services/WebSocket/Service/WebSocketService.swift:96-110 | a no-op when disconnected; otherwise stops, closes with exit, cancels jobs, empties the table, marks restoration due |
| WebSocket.WebSocketService.ConnectIfNeeded | MixinServices/MixinServices/Services/WebSocket/Service/WebSocketService.swift:112-123 | nothing without login and reachability or while connecting; connects when disconnected, with the new status, socket and dates; reconnects a connection the socket no longer reports, giving the new status, flag, socket and dates |
| WebSocket.WebSocketService.InvokeHandler | MixinServices/MixinServices/Services/WebSocket/Service/WebSocketService.swift:337-356 | appends the invocation; counts a restoration exactly when it restores; success of the pending-messages request clears the due flag |
| WebSocket.WebSocketService.Send | MixinServices/MixinServices/Services/WebSocket/Service/WebSocketService.swift:323-333 | a frame is sent exactly with a socket, while connected, when it encodes |
| WebSocket.WebSocketService.RespondedMessage | MixinServices/MixinServices/Services/WebSocket/Service/WebSocketService.swift:125-166 | refused when logged out; otherwise registers a waiter and sends; a failed send removes the waiter and fails with a timeout |
| WebSocket.WebSocketService.RequestListPendingMessages | MixinServices/MixinServices/Services/WebSocket/Service/WebSocketService.swift:335-358 | registers the pending-messages handler and sends when possible; the handler stays even when the send fails |
| WebSocket.WebSocketService.ListPendingRetryFired | MixinServices/MixinServices/Services/WebSocket/Service/WebSocketService.swift:349-354 | the retry re-requests only while a socket reports connected |
| WebSocket.WebSocketService.WebsocketDidReceivePong | MixinServices/MixinServices/Services/WebSocket/Service/WebSocketService.swift:172-176 | a pong reaches the heartbeat exactly when one exists |
| WebSocket.WebSocketService.WebsocketDidConnect | MixinServices/MixinServices/Services/WebSocket/Service/WebSocketService.swift:178-212 | ignored unless connecting; stale means reconnect with the new status, flag, socket and dates; skew means disconnect with the skew flag; accept connects and requests pending messages, keeping the socket flags, both dates, the deferred-connect flag and the restoration state |
| WebSocket.WebSocketService.AcceptHandshake | MixinServices/MixinServices/Services/WebSocket/Service/WebSocketService.swift:199-211 | an accepted handshake connects, registers and sends the pending-messages request, and appends the refresh jobs |
| WebSocket.WebSocketService.WebsocketDidDisconnect | MixinServices/MixinServices/Services/WebSocket/Service/WebSocketService.swift:214-224 | ignored when disconnected; otherwise toggles the host on a network switch and reconnects without a remote close, giving the new status, flag, socket and dates |
| WebSocket.WebSocketService.CloseTwiceWithinDebounce | MixinServices/MixinServices/Services/WebSocket/Service/WebSocketService.swift:214-321 | a second close less than a second after a close that reconnected at once does not reconnect; the service waits for the network |
| WebSocket.WebSocketService.WebsocketDidReceiveData | MixinServices/MixinServices/Services/WebSocket/Service/WebSocketService.swift:226-260 | an undecodable frame changes nothing; a frame removes its handler and appends its dispatch effects |
| WebSocket.WebSocketService.NetworkBecomesReachable | MixinServices/MixinServices/Services/WebSocket/Service/WebSocketService.swift:286-293 | connects only when logged in, reachable and a connection was deferred to it, with the status, socket and dates that Connect gives |
| WebSocket.WebSocketService.TimeOutHandlers | MixinServices/MixinServices/Services/WebSocket/Service/WebSocketService.swift:298-301 | every waiting handler is invoked once with a timeout, in some order, and the table is emptied |
| WebSocket.WebSocketService.TearDown | MixinServices/MixinServices/Services/WebSocket/Service/WebSocketService.swift:297-308 | resets prekey bookkeeping, times out all handlers, shuts down and leaves the service disconnected |
| WebSocket.WebSocketService.Reconnect | MixinServices/MixinServices/Services/WebSocket/Service/WebSocketService.swift:295-321 | tears down, then connects at once exactly when the policy says so (new status, reachable socket, dates stamped now), otherwise defers to reachability with the fields kept |
| WebSocket.WebSocketService.ConnectOrWait | MixinServices/MixinServices/Services/WebSocket/Service/WebSocketService.swift:310-319 | connects when the policy allows (new status, socket and dates), otherwise arms the reachability flag and keeps the fields |

## Left out

- Concurrency is not modelled: the serial service queue, the message queue, the semaphore, dispatch to the main thread and the timers. Each operation runs to completion. A delayed retry is recorded as an effect with its due time, and `ListPendingRetryFired` models it when it runs.
- Sockets, gzip and JSON are not modelled (Starscream, the gzip helpers and the coders). A decoded frame arrives as `Option<BlazeMessage>`, and "encodes" is a boolean parameter.
- UUIDs, `Date()`, the server time and the store's conversation-id derivation are parameters.
- The status mirror into shared user defaults and the notification names are not modelled.
- The heartbeat's internals are not modelled. Its offline callback is the entry point `Reconnect(true, …)`, and the pong and stop calls appear as effects.
- WebSocket.WebSocketService.RespondedMessage: the five-second wait and the returned response are not modelled. The reply reaches the waiter through `WebsocketDidReceiveData`. The cleanup closure for error 10002 (deleting a message and its job) is a store operation and is not modelled.
- WebSocket.WebSocketService.Disconnect: the handlers are discarded without being invoked, as the code does, so "exactly one delivery per request" holds only for timeouts and frames (`ReconnectDeliversOrder`, `DispatchDeliversOnce`).
- Strings.Lower: lower-cases ASCII capitals only. Swift's `lowercased()` is full Unicode.
- Strings.Contains: compares `char` by `char`. Foundation's `range(of:)` also treats canonically equivalent text as equal: a precomposed "é" matches "e" followed by U+0301.
- Strings.TrimStart: the whitespace set is the Latin-1 part of `whitespacesAndNewlines`. A Swift `Character` (a grapheme cluster) is one `char`. The same holds for Strings.TrimEnd.
- Gallery.GalleryItemModelController.DequeueWith: `GalleryItem` is not part of this model. The model takes it as a value compared on all its fields, so `firstIndex(of:)` matches only an identical copy. If the app's `==` compares message ids, or items are shared objects changed in place, the look-ups find items the model does not.
- Gallery.GalleryItemModelController.ViewControllerBefore: takes `GalleryItem` as a value compared on all its fields, as for `DequeueWith`. The same holds for Gallery.GalleryItemModelController.ViewControllerAfter.
- `updateDownloadProgress` only restyles a view controller's button and is not modelled. The same goes for view-controller reuse and the page size.
- Keyboard layout, placeholders, titles and alerts are not modelled, and navigation is reduced to the action a screen returns. A nil text view text is the empty string.
- The keychain, `WalletUserDefault` and `AccountAPI.shared.account` are not modelled as stores. The PIN screen's writes to them are returned as `PinStoreWrite` records, and the account is an opaque string.
- WalletPassword.WalletPasswordScreen.constructor: the next button's initial enabled and hidden states come from the storyboard. They are constructor parameters, not fixed values. The same holds for the save button of a new NewAddress.NewAddressForm.constructor.
- NewAddress.NewAddressForm.ShouldRecognizeString: uses the corrected normalisation `StandardizedAddress`. On a scanned address with a '?' before offset 9, such as "iban:XE?000000000000", the code instead traps at `NewAddressViewController.swift:179` (see Findings), whereas the model stores the raw string.
- The following are not part of this model: `EdDSAMigration+Migrate.swift`, `BigAmountConfirmationWindow.swift` and `ContinueButtonViewController.swift`.

## Findings

| source | as written | input that shows it | evidently intended | confidence | as-written member | corrected member |
|---|---|---|---|---|---|---|
| Mixin/UserInterface/Controllers/Wallet/NewAddressViewController.swift:178-179 | the account identifier is sliced from offset 9 to the first '?', and a '?' before offset 9 makes the range's lower bound exceed its upper bound, which traps | "iban:XE?000000000000" (20 characters, '?' at offset 7) | such a string is not a convertible address and gives nil | not executed | NewAddress.QuestionMarkInCheckDigitsTraps | NewAddress.StandardizedAddress |
