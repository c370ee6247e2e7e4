# Cards wallet screens, modelled in Dafny

This project models the logic of three screens of the Cards mobile wallet app
(React Native).

- **Wallet** (`src/screens/WalletScreen.js`):
  - a balance per currency (Smart Pay and local currency) and an append-only list of transactions;
  - deposits and withdrawals through a modal form, with their guards: a valid amount, a stored login token (deposits only) and a sufficient balance (withdrawals only);
  - fetching the balance and the history from the server, with per-record id and timestamp fallbacks;
  - the history displayed newest first.
- **Pay** (`src/screens/PayScreen.js`):
  - reading a merchant QR code of the form `id|name`;
  - checking the merchant id and the amount;
  - asking for confirmation before a payment.
- **Profile** (`src/screens/ProfileScreen.js`):
  - the labels derived from camelCase keys;
  - the rows shown;
  - the settings switches;
  - the biometric-login toggle and the detection of the device's biometric type;
  - the edit button.

Each screen's state is a class whose methods are the screen's handlers. The
remote calls, the stored token, the clock, `Math.random` and the device's
authentication prompt become method parameters: whether the request succeeded,
whether a token is stored, the timestamp, the random id suffix, and how
authentication ended. Some handlers return what stands for their alert or
prompt: `Deposit`, `Withdraw` and `Confirm` their outcome,
`HandleBarCodeScanned` the "Merchant Found" text, `HandlePay` the confirmation
text (or `None`), `HandleEditPress` whether the update is announced, and
`HandleBiometricToggle` whether the device was prompted. The other alerts are
not modelled (see "Left out").

JavaScript behaviour the screens rely on is spelt out in four support modules:

- `JsText`: `trim` and `split`.
- `JsNumber`: `Number()` (as `isNaN` applies it to a string) and `parseFloat`, on plain decimal numerals.
- `JsObject`: a plain object's key order and the `{ ...prev, [key]: value }` update.
- `Options`: an `Option` type.

Amounts are exact rational numbers.

Transactions have no pending or confirmed status, and there is no
deduplication and no reconciliation: a fetched history replaces the local list
(`src/screens/WalletScreen.js:65`).

Deposits and withdrawals are specified by the pure functions `Wallet.DepositStep`
and `Wallet.WithdrawStep`. Each takes the ledger (balance and list) and what the
amount text parses to, and gives the outcome and the new ledger. The class
methods `Deposit` and `Withdraw` update the screen's fields to exactly what
those functions give.

## Model

| member | source | states |
|---|---|---|
| JsText.TrimStartShape | src/screens/PayScreen.js:62 | `trimStart` removes exactly a whitespace prefix: the rest is a suffix of the text and starts with a non-whitespace character, or is empty |
| JsText.TrimEndShape | src/screens/PayScreen.js:62 | `trimEnd` removes exactly a whitespace suffix: the rest is a prefix of the text and ends with a non-whitespace character, or is empty |
| JsText.TrimStartEmptyIff | src/screens/PayScreen.js:62 | `trimStart` leaves nothing exactly when the text is empty or all whitespace |
| JsText.TrimEmptyIff | src/screens/PayScreen.js:62 | `merchantId.trim()` is empty (falsy) exactly when the id is empty or all whitespace |
| JsText.Trim | src/screens/PayScreen.js:62 | `s.trim()`: `trimStart` then `trimEnd`; what it leaves is stated by `TrimStartShape`, `TrimEndShape` and `TrimEmptyIff` |
| JsText.Split | src/screens/PayScreen.js:51 | `split('\|')` gives at least one field, and no field contains the separator |
| JsText.JoinSplit | src/screens/PayScreen.js:51 | joining the fields of `split` with the separator gives the text back |
| JsText.SplitWithoutSeparator | src/screens/PayScreen.js:51 | a text without the separator splits into itself alone |
| JsText.SplitAtSeparator | src/screens/PayScreen.js:51 | the first field is the text before the first separator; the rest splits on its own |
| JsText.SplitJoin | src/screens/PayScreen.js:51 | splitting joined fields that do not contain the separator gives the fields back |
| JsNumber.Value | src/screens/WalletScreen.js:96 | a numeral is NaN exactly when it has no digit before or after the point |
| JsNumber.ToNumber | src/screens/WalletScreen.js:96 | `Number(s)` as `isNaN` applies it: a blank text is 0; otherwise, after leading whitespace, one plain decimal numeral followed only by whitespace, else NaN; `BlankParsesToNaN`, `ToNumberAgreesWithParseFloat` and `ReadDecimalString` state its properties |
| JsNumber.ParseFloat | src/screens/WalletScreen.js:96 | `parseFloat(s)`: the plain decimal numeral after the leading whitespace, the rest ignored, NaN when it has no digit; `BlankParsesToNaN` and `ToNumberAgreesWithParseFloat` relate it to `Number()` |
| JsNumber.AmountGuardAsWritten | src/screens/WalletScreen.js:96 | the amount passes `!amount \|\| isNaN(amount) \|\| parseFloat(amount) <= 0` exactly as written; `AsWrittenGuardAlsoAcceptsBlank` states what it accepts |
| JsNumber.GreaterThan | src/screens/WalletScreen.js:187 | `x > b` in JavaScript: false whenever `x` is NaN |
| JsNumber.PositiveAmount | src/screens/WalletScreen.js:96-99 | an accepted amount is positive, and the empty text is refused |
| JsNumber.PositiveAmountIff | src/screens/WalletScreen.js:96-99 | the corrected guard accepts exactly the non-blank texts that `Number()` reads as a positive number; the accepted value is then what both `Number()` and `parseFloat` give |
| JsNumber.InvalidAmountsRefused | src/screens/WalletScreen.js:96-99 | empty, non-numeric and non-positive amounts are refused |
| JsNumber.ToNumberAgreesWithParseFloat | src/screens/WalletScreen.js:96 | on a non-blank text that `Number()` reads as a number, `parseFloat` reads the same number |
| JsNumber.BlankParsesToNaN | src/screens/WalletScreen.js:96 | a blank text is 0 for `Number()` (so `isNaN` is false) but NaN for `parseFloat` |
| JsNumber.AsWrittenGuardAlsoAcceptsBlank | src/screens/WalletScreen.js:96-99 | the guard as written accepts exactly what the corrected one accepts, plus every non-empty blank text, whose `parseFloat` is NaN |
| JsNumber.OneSpacePassesGuardAsWritten | src/screens/WalletScreen.js:96-99 | the amount `" "` passes the guard as written, and the amount then posted is NaN |
| JsNumber.DecimalString | src/screens/WalletScreen.js:137 | `String(n)` is a non-empty run of digits |
| JsNumber.IntString | src/screens/WalletScreen.js:137 | `String(i)` in a template literal is non-empty |
| JsNumber.DecimalStringValue | src/screens/WalletScreen.js:137 | the digits `String(n)` writes denote `n` |
| JsNumber.ScanAllDigits | src/screens/WalletScreen.js:96 | a non-empty digit text is read whole as one unsigned numeral |
| JsNumber.ReadDecimalString | src/screens/WalletScreen.js:96 | `Number(String(n))` and `parseFloat(String(n))` are both `n` |
| JsNumber.WholeAmountAccepted | src/screens/WalletScreen.js:96-99 | a positive whole amount typed as digits is accepted with its value |
| JsObject.Keys | src/screens/ProfileScreen.js:312 | `Object.entries` lists one key per entry, in entry order |
| JsObject.Get | src/screens/ProfileScreen.js:143 | reading a key is undefined exactly when the key is absent; otherwise it is the value of an entry under that key |
| JsObject.AssignKeys | src/screens/ProfileScreen.js:392 | `{ ...prev, [key]: value }` keeps the key order for an existing key and appends a new key at the end |
| JsObject.Assign | src/screens/ProfileScreen.js:333 | `{ ...prev, [key]: value }`; `AssignKeys`, `AssignGet` and `AssignDistinct` state its key order, its reads and its distinct keys |
| JsObject.AssignGet | src/screens/ProfileScreen.js:392 | after the update the key reads as the new value and every other key reads as before |
| JsObject.AssignDistinct | src/screens/ProfileScreen.js:392 | the update keeps the keys distinct |
| Wallet.CheckedBalance | src/screens/WalletScreen.js:182-185 | a withdrawal is checked against the selected currency's balance, and against the local balance when the picker's placeholder is selected |
| Wallet.Adjust | src/screens/WalletScreen.js:123-133 | the balance update moves exactly the selected currency by the amount, leaves the other unchanged, and leaves both unchanged under the placeholder |
| Wallet.AdjustBack | src/screens/WalletScreen.js:206-216 | moving a balance by an amount and then by its negation restores it |
| Wallet.BlankWithdrawalPassesChecksAsWritten | src/screens/WalletScreen.js:177-190 | as written: a non-empty blank amount passes the amount guard and also the balance check `parseFloat(amount) > currentBalance`, for every balance and selection, and the amount posted is NaN |
| Wallet.CheckedWithdrawalStaysNonNegative | src/screens/WalletScreen.js:182-190 | a withdrawal of a positive amount no larger than the checked balance keeps a non-negative balance non-negative |
| Wallet.GeneratedId | src/screens/WalletScreen.js:137 | a generated id ends with the random suffix, with a '-' just before it |
| Wallet.GeneratedIdInjective | src/screens/WalletScreen.js:45-53 | ids are unique as the code intends: distinct stamps or distinct suffixes (which never contain '-') give distinct ids |
| JsNumber.IntStringShape | src/screens/WalletScreen.js:137 | `String(i)` is an optional leading '-' and then digits; it starts with a digit exactly when `i` is not negative |
| JsNumber.DecimalStringInjective | src/screens/WalletScreen.js:137 | different natural numbers are written differently |
| JsNumber.IntStringInjective | src/screens/WalletScreen.js:137 | different integers are written differently |
| Wallet.Normalize | src/screens/WalletScreen.js:46-63 | a fetched record keeps its type, amount and currency; its id is `id`, else `_id`, else a generated one, and never empty; its timestamp is `timestamp`, else `date`, else now |
| Wallet.NormalizeIdempotent | src/screens/WalletScreen.js:49-55 | a normalised record sent back by the server comes out unchanged, whatever the clock and random suffix then are |
| Wallet.NormalizeAll | src/screens/WalletScreen.js:46-63 | a fetched batch keeps its count and order, each record normalised |
| Wallet.Displayed | src/screens/WalletScreen.js:335 | the displayed list has the same length, and its i-th row is the i-th record from the end |
| Wallet.DisplayedAppend | src/screens/WalletScreen.js:335 | an appended record is displayed first, above the earlier ones in their previous order |
| Wallet.DisplayedTwice | src/screens/WalletScreen.js:335 | reversing the displayed list gives the stored list back |
| Wallet.DepositStep | src/screens/WalletScreen.js:94-173 | an invalid amount is refused first, then a missing token, then a failed request, each leaving the ledger unchanged; success happens exactly when all three pass, moves exactly the selected currency by +amount and appends exactly one "Deposit" record at the end |
| Wallet.WithdrawStep | src/screens/WalletScreen.js:175-241 | an invalid amount is refused, then an amount above the checked balance (an amount equal to it is allowed), then a failed request, each leaving the ledger unchanged; there is no token check; success moves exactly the selected currency by -amount, appends one "Withdrawal" record of -amount, and keeps a non-negative balance non-negative |
| Wallet.DepositThenWithdraw | src/screens/WalletScreen.js:94-241 | a successful deposit can be withdrawn at once; the two restore the balance and add exactly two records after the earlier ones |
| Wallet.WalletScreen.constructor | src/screens/WalletScreen.js:20-26 | the initial state: zero balances, no transactions, form closed and empty, Smart Pay selected |
| Wallet.WalletScreen.FetchBalance | src/screens/WalletScreen.js:75-92 | a failed fetch leaves the balance as it was; a reply sets both fields, a missing field read as 0 |
| Wallet.WalletScreen.FetchTransactions | src/screens/WalletScreen.js:36-73 | a failed fetch leaves the list as it was; otherwise the normalised batch replaces the list wholesale |
| Wallet.WalletScreen.Deposit | src/screens/WalletScreen.js:94-173 | the outcome and new balance and list are those of `DepositStep` on the amount field; on success the form closes and the amount clears, otherwise both stay |
| Wallet.WalletScreen.Withdraw | src/screens/WalletScreen.js:175-241 | the outcome and new balance and list are those of `WithdrawStep` on the amount field; on success the form closes and the amount clears, otherwise both stay |
| Wallet.WalletScreen.OpenModal | src/screens/WalletScreen.js:243-248 | opening the form records its kind, shows it, clears the amount and selects Smart Pay |
| Wallet.WalletScreen.Confirm | src/screens/WalletScreen.js:387-392 | shown only with the form; Confirm has the outcome and new balance and list of `DepositStep` when the form was opened as "deposit" and of `WithdrawStep` otherwise, and closes the form exactly on success |
| Wallet.WalletScreen.EnterAmount | src/screens/WalletScreen.js:358 | typing sets the amount text |
| Wallet.WalletScreen.SelectCurrency | src/screens/WalletScreen.js:363 | the picker sets the selection, the placeholder included |
| Wallet.WalletScreen.CloseModal | src/screens/WalletScreen.js:383 | Cancel hides the form |
| Pay.ValidateInputAsWritten | src/screens/PayScreen.js:61-71 | as written: a blank merchant id is refused whatever the amount; otherwise the amount guard as written decides |
| Pay.ValidateInput | src/screens/PayScreen.js:61-71 | a blank merchant id is refused whatever the amount; validation passes exactly when the id has a non-whitespace character and the amount is a non-blank text that `Number()` reads as a positive number; otherwise the amount is refused |
| Pay.ValidateInputAsWrittenAcceptsBlankAmount | src/screens/PayScreen.js:66-69 | the as-written and corrected checks differ exactly on a filled-in merchant id with a non-empty blank amount, which the code as written lets through with a NaN amount |
| Pay.MerchantIdIsPrefix | src/screens/PayScreen.js:51 | the scanned id is the code up to its first '\|', or the whole code when it has none |
| Pay.MerchantIdField | src/screens/PayScreen.js:51 | the first element of `data.split('\|')`, the scanned merchant id; `MerchantIdIsPrefix` states what it is |
| Pay.MerchantNameField | src/screens/PayScreen.js:51 | the second element of `data.split('\|')`, undefined when there is none; `ScanIdAndName` and `ScanWithoutSeparator` state it |
| Pay.MerchantFoundMessage | src/screens/PayScreen.js:55 | the "Merchant Found" text: the name (printed "undefined" when missing) and the id |
| Pay.ConfirmMessage | src/screens/PayScreen.js:78 | the "Confirm Payment" text, naming the currency, the amount and the merchant id |
| Pay.ScanIdAndName | src/screens/PayScreen.js:51 | a code `id\|name` gives back the id and the name |
| Pay.ScanIgnoresExtraFields | src/screens/PayScreen.js:51 | fields after the name do not change the id or the name |
| Pay.ScanWithoutSeparator | src/screens/PayScreen.js:51 | a code without '\|' is the id, and the name is undefined |
| Pay.ScannedMerchantPassesValidation | src/screens/PayScreen.js:51-65 | a scanned id with a non-whitespace character passes the merchant check |
| Pay.SecondScanIgnoredAsWritten | src/screens/PayScreen.js:159-163 | as written: after a code is read and the scanner is reopened by its button, a second code is ignored, the merchant id stays the first code's and no alert is raised |
| Pay.SecondScanRead | src/screens/PayScreen.js:225-235 | with the scan button re-arming the scanner, a second code read after reopening replaces the merchant id and raises its alert |
| Pay.PayScreen.constructor | src/screens/PayScreen.js:26-33 | the initial state: nothing scanned, scanner hidden, empty fields, Smart Pay |
| Pay.PayScreen.EnterMerchantId | src/screens/PayScreen.js:152 | typing sets the merchant id |
| Pay.PayScreen.EnterAmount | src/screens/PayScreen.js:172 | typing sets the amount |
| Pay.PayScreen.ChooseCurrency | src/screens/PayScreen.js:186-206 | a currency button selects "SMART_PAY" or "LOCAL" |
| Pay.PayScreen.OpenScanner | src/screens/PayScreen.js:159-163 | corrected: the scan button shows the scanner armed, as Close leaves it |
| Pay.PayScreen.CloseScanner | src/screens/PayScreen.js:232-235 | Close hides the scanner and re-arms it |
| Pay.PayScreen.OpenScannerAsWritten | src/screens/PayScreen.js:159-163 | as written: the scan button shows the scanner and leaves `scanned` as it is |
| Pay.PayScreen.HandleBarCodeScanned | src/screens/PayScreen.js:49-59 | a code reaches the handler only while the scanner shows, and is ignored once a code was read (`scanned`, line 227); otherwise it marks the code read, hides the scanner and sets the merchant id to the first field, and the alert names the second field and the id |
| Pay.PayScreen.HandlePay | src/screens/PayScreen.js:73-84 | the confirmation prompt is shown exactly when validation passes, with the currency, amount and merchant id |
| Profile.ToUpper | src/screens/ProfileScreen.js:317 | `toUpperCase` turns each of a-z into its own capital (the code point 32 lower) and leaves other characters |
| Profile.ToLower | src/screens/ProfileScreen.js:317-318 | lower-casing, the inverse the label round trip uses: each of A-Z becomes its own small letter and other characters stay |
| Profile.CaseRoundTrip | src/screens/ProfileScreen.js:317 | upper-casing a small letter and lower-casing it again gives it back, and the other way round |
| Profile.SpaceBeforeCapitalsLength | src/screens/ProfileScreen.js:318 | the replacement adds one character per capital |
| Profile.SpaceBeforeCapitals | src/screens/ProfileScreen.js:318 | `replace(/([A-Z])/g, " $1")`, character by character; the lemmas below state its length, spacing and inverse |
| Profile.SpaceBeforeEveryCapital | src/screens/ProfileScreen.js:318 | every capital of the result has a space in front of it |
| Profile.DropSpacesUndoesSpacing | src/screens/ProfileScreen.js:318 | removing the spaces again gives back a text that had none |
| Profile.SpaceBeforeCapitalsAppend | src/screens/ProfileScreen.js:318 | the replacement works character by character: it distributes over concatenation |
| Profile.SpaceBeforeCapitalsLower | src/screens/ProfileScreen.js:318 | a lower-case word is left unchanged |
| Profile.SpaceBeforeCapitalisedWord | src/screens/ProfileScreen.js:318 | a capitalised word gets exactly one space in front |
| Profile.FieldLabelShape | src/screens/ProfileScreen.js:317-318 | a field label's first character is the key's upper-cased, its rest is the spaced rest of the key, and its length is the key's plus the number of capitals after position 0 |
| Profile.FieldLabel | src/screens/ProfileScreen.js:317-318 | a field label: the key's first character upper-cased, then its rest with a space before each capital; `FieldLabelShape` and `FieldLabelRoundTrip` state its shape and inverse |
| Profile.SettingLabel | src/screens/ProfileScreen.js:370-373 | a setting label: the replacement first, then the first character upper-cased; `SettingLabelAgreesWithFieldLabel` relates it to `FieldLabel` |
| Profile.SettingLabelAgreesWithFieldLabel | src/screens/ProfileScreen.js:370-373 | for a key not starting with a capital the settings formula gives the field label; for one that does, it keeps an extra leading space |
| Profile.FieldLabelRoundTrip | src/screens/ProfileScreen.js:317-318 | a camelCase key without spaces starting lower-case is recovered from its label |
| Profile.TwoWordLabel | src/screens/ProfileScreen.js:317-318 | a key made of a lower-case word and a capitalised word is labelled as the two words, the first capitalised, with a space between them |
| Profile.TwoWordKeyLabel | src/screens/ProfileScreen.js:317-373 | such a key gets that label from both the field and the settings formula |
| Profile.FullNameLabel | src/screens/ProfileScreen.js:317-318 | `fullName` is labelled "Full Name" |
| Profile.IdNumberLabel | src/screens/ProfileScreen.js:317-318 | `idNumber` is labelled "Id Number" |
| Profile.Hide | src/screens/ProfileScreen.js:312-313 | the rows kept are entries not under the hidden key, and every such entry is kept |
| Profile.ProfileRows | src/screens/ProfileScreen.js:312-313 | the profile section shows every field except `profileImage` |
| Profile.HideAbsent | src/screens/ProfileScreen.js:312-313 | hiding a key the object does not hold keeps every row in order |
| Profile.HideOne | src/screens/ProfileScreen.js:312-313 | hiding the key of one entry of an object with distinct keys drops exactly that row and keeps the rest in `Object.entries` order |
| Profile.SettingRows | src/screens/ProfileScreen.js:354-358 | the settings section shows every setting, and hides `biometricLogin` exactly when biometrics are unsupported |
| Profile.BiometricTypeName | src/screens/ProfileScreen.js:69-81 | "Face ID" exactly when facial recognition is listed, else "Fingerprint" exactly when fingerprint is, else "Biometric" |
| Profile.ProfileScreen.constructor | src/screens/ProfileScreen.js:28-46 | the initial profile and settings objects, in their key order, not editing, no biometrics detected |
| Profile.ProfileScreen.CheckBiometricSupport | src/screens/ProfileScreen.js:52-87 | support is what the hardware query says and false once any query throws; the type name is set only when the device is enrolled and lists its types |
| Profile.ProfileScreen.HandleBiometricToggle | src/screens/ProfileScreen.js:89-132 | unsupported: settings unchanged; otherwise the device is prompted exactly when turning on, and `biometricLogin` ends true exactly when turning on and authentication succeeded; nothing else changes |
| Profile.ProfileScreen.SetSetting | src/screens/ProfileScreen.js:392 | one setting takes the new value, every other key reads as before, and the key order is kept |
| Profile.ProfileScreen.SettingSwitched | src/screens/ProfileScreen.js:388-393 | the biometric switch goes through the toggle; any other switch changes only its own key |
| Profile.ProfileScreen.HandleEditPress | src/screens/ProfileScreen.js:145-150 | the edit button flips edit mode and announces the update exactly when leaving it |
| Profile.ProfileScreen.EditField | src/screens/ProfileScreen.js:312-337 | the inputs exist only in edit mode, one per shown field; typing in one changes only that field, keeping the key order |

## Left out

- Network requests (`axios` to the wallet, pay and auth endpoints): only whether one succeeded is a parameter. The server's reply messages are not modelled.
- The four alerts of a deposit's `catch` (404, another error response, no response, any other error) are one `RemoteFailed` outcome (`posted` false). A token read that throws lands in the same `catch`, and is modelled the same way.
- `processPayment` in `PayScreen.js` is not part of this model. It is the payment request with its `isLoading` and `error` state and navigation.
- `AsyncStorage`: the token is a "token stored" flag. Withdrawals send whatever is stored, so they take no flag.
- Alert texts are not modelled, except the merchant and confirmation messages of the pay screen.
- Alerts with no counterpart in the model: the error alerts of a failed `fetchTransactions` and `fetchBalance` (`WalletScreen.js` lines 68-71 and 90); "Biometric Record Not Found" in `checkBiometricSupport` (`ProfileScreen.js` lines 60-63); and the two validation alerts behind `HandlePay`'s `None`, which `Pay.ValidateInput`'s result tells apart (`PayScreen.js` lines 63 and 67).
- The following are left out as rendering or device I/O:
  - navigation;
  - the camera permission;
  - the image picker (`pickImage`, `takePhoto`, the image modal);
  - logout and account deletion;
  - the dark-mode theme and header colours;
  - the balance-visibility eye toggle and `toFixed(2)` display.
- `Date.now()` and `Math.random().toString(36).substr(2, 9)` are parameters (`timestamp`/`now`, `suffix`/`suffixes`).
- Wallet.NormalizeAll: one `now` stands for every `Date.now()` call of a fetch. The source calls it separately for the generated id and for the timestamp of each record (lines 52 and 55), and those calls may give different instants.
- The `date` and `time` strings made by `toLocaleDateString`/`toLocaleTimeString` are not modelled. Neither is the spread of the server's other fields into a record. A fetched `date` is taken to be an instant, like `timestamp`.
- Floating point: amounts and balances are exact rationals, so rounding and overflow are not modelled.
- Number syntax: `Number()` and `parseFloat` recognise plain decimal numerals (sign, digits, one point). `JsNumber.ToNumber` reads exponents, `Infinity` and hexadecimal, octal or binary literals as NaN. `JsNumber.ParseFloat` stops before an exponent, so it reads `"1e3"` as 1 where JavaScript gives 1000, and it reads `"Infinity"` as NaN.
- Profile.ToUpper: covers the ASCII letters only; `toUpperCase` on other letters is not modelled. The `[A-Z]` pattern is ASCII in the source too.
- Concurrency: handlers run one at a time. The stale `balance` read by `handleWithdraw`'s check while the update uses `prevBalance` is not modelled.
- Wallet.WalletScreen.Deposit: uses the corrected amount guard `JsNumber.PositiveAmount`, not the guard as written (see Findings). `JsNumber.AmountGuardAsWritten` models the guard as written.
- Wallet.WalletScreen.Withdraw: uses the corrected amount guard, as `Deposit` does.
- Wallet.WalletScreen.Confirm: runs `Deposit` or `Withdraw`, so it uses the corrected amount guard too.
- Pay.PayScreen.OpenScanner: re-arms the scanner, which the button as written does not do (see Findings). `Pay.PayScreen.OpenScannerAsWritten` is the button as written.
- JsObject.Assign: appends a new key at the end. JavaScript lists integer-like keys ("1", "42") first, in ascending order. The screens' keys are all camelCase words, so this does not arise.
- Pay.PayScreen.HandlePay: uses the corrected `Pay.ValidateInput`; `Pay.ValidateInputAsWritten` is the code as written.

## Findings

| source | as written | input that shows it | evidently intended | confidence | as-written member | corrected member |
|---|---|---|---|---|---|---|
| src/screens/WalletScreen.js:96-99 | `!amount \|\| isNaN(amount) \|\| parseFloat(amount) <= 0` lets a non-empty all-whitespace amount through: `isNaN(" ")` is false because `Number(" ")` is 0, and `parseFloat(" ")` is NaN, for which `<= 0` is false | amount `" "`: the deposit posts `parseFloat(" ")`, NaN, and on success adds NaN to the balance | refuse any amount that is not a positive number, e.g. `!(parseFloat(amount) > 0)` | not executed | JsNumber.OneSpacePassesGuardAsWritten | JsNumber.PositiveAmountIff |
| src/screens/WalletScreen.js:177-180 | the same guard in `handleWithdraw`; `parseFloat(" ") > currentBalance` is also false, so the balance check passes too | amount `" "`: the withdrawal posts NaN and on success subtracts NaN from the balance | as above | not executed | Wallet.BlankWithdrawalPassesChecksAsWritten | JsNumber.PositiveAmountIff |
| src/screens/PayScreen.js:66-69 | the same guard in `validateInput` | merchant id `"M1"`, amount `" "`: validation passes and the confirmation offers to pay `" "`, which `processPayment` would post as NaN | as above | not executed | Pay.ValidateInputAsWrittenAcceptsBlankAmount | Pay.ValidateInput |
| src/screens/PayScreen.js:159-163 | the "Scan QR Code" button calls `setShowScanner(true)` but does not reset `scanned`; after a code is read, the scanner stays disarmed (line 227 passes `undefined` to the camera) until Close is pressed | read code `"A\|x"`, then press "Scan QR Code" and show code `"B\|y"`: the camera shows, nothing is read, and the merchant id stays "A" | the scan button shows the scanner armed, as Close leaves it: `setScanned(false)` with `setShowScanner(true)` | not executed | Pay.SecondScanIgnoredAsWritten | Pay.SecondScanRead |
