/**
  The pay screen: reading a merchant QR code of the form "id|name", checking
  the merchant id and amount fields, and asking for confirmation before a
  payment. The camera, the alerts and the payment request are left out; the
  screen's answer to each action is returned instead.
 */
module Pay {
  import opened Options
  import opened JsText
  import opened JsNumber

  /** What `validateInput` decides, with the alert each refusal raises. */
  datatype Validation = Valid | MissingMerchant | InvalidAmount

  /** The two currencies of the pay form, "SMART_PAY" and "LOCAL". */
  datatype PayCurrency = SmartPay | Local

  function CurrencyCode(c: PayCurrency): string {
    match c
    case SmartPay => "SMART_PAY"
    case Local => "LOCAL"
  }

  /** `validateInput` as written: a blank merchant id is refused first, then
      the amount under the guard both screens share. */
  function ValidateInputAsWritten(merchantId: string, amount: string): (r: Validation)
    ensures r == MissingMerchant <==> AllSpace(merchantId)
    ensures r == Valid <==> !AllSpace(merchantId) && AmountGuardAsWritten(amount)
  {
    TrimEmptyIff(merchantId);
    if Trim(merchantId) == [] then MissingMerchant
    else if !AmountGuardAsWritten(amount) then InvalidAmount
    else Valid
  }

  /** `validateInput` with the amount guard as evidently intended: the
      merchant id must hold something other than whitespace, and the amount
      must be a text that `Number()` reads as a positive number. */
  function ValidateInput(merchantId: string, amount: string): (r: Validation)
    ensures r == MissingMerchant <==> AllSpace(merchantId)
    ensures r == Valid <==>
              && !AllSpace(merchantId)
              && !AllSpace(amount) && ToNumber(amount).Num? && ToNumber(amount).value > 0.0
    ensures r == InvalidAmount <==>
              && !AllSpace(merchantId)
              && (AllSpace(amount) || ToNumber(amount).NaN? || ToNumber(amount).value <= 0.0)
  {
    TrimEmptyIff(merchantId);
    PositiveAmountIff(amount);
    if Trim(merchantId) == [] then MissingMerchant
    else if PositiveAmount(amount).None? then InvalidAmount
    else Valid
  }

  /** The two versions decide differently exactly when the merchant id is
      filled in and the amount is a non-empty run of whitespace: the code as
      written lets it through, and the payment would then post NaN. */
  lemma ValidateInputAsWrittenAcceptsBlankAmount(merchantId: string, amount: string)
    ensures ValidateInputAsWritten(merchantId, amount) != ValidateInput(merchantId, amount)
            <==> !AllSpace(merchantId) && amount != [] && AllSpace(amount)
    ensures ValidateInputAsWritten(merchantId, amount) != ValidateInput(merchantId, amount) ==>
              && ValidateInputAsWritten(merchantId, amount) == Valid
              && ValidateInput(merchantId, amount) == InvalidAmount
              && ParseFloat(amount) == NaN
  {
    AsWrittenGuardAlsoAcceptsBlank(amount);
  }

  /** The first field of `data.split('|')`: the scanned merchant id. */
  function MerchantIdField(data: string): string {
    Split(data, '|')[0]
  }

  /** The second field of `data.split('|')`, `None` (undefined) when the code
      holds no '|': the merchant's name. */
  function MerchantNameField(data: string): Option<string> {
    var parts := Split(data, '|');
    if |parts| >= 2 then Some(parts[1]) else None
  }

  /** The scanned id is everything before the first '|', or the whole code
      when there is none. */
  lemma {:induction false} MerchantIdIsPrefix(data: string)
    ensures var id := MerchantIdField(data);
            && '|' !in id
            && |id| <= |data| && data[..|id|] == id
            && (|id| == |data| || data[|id|] == '|')
  {
    if data != [] && data[0] != '|' {
      MerchantIdIsPrefix(data[1..]);
    }
  }

  /** A code "id|name" gives back the id and the name. */
  lemma ScanIdAndName(id: string, name: string)
    requires '|' !in id && '|' !in name
    ensures MerchantIdField(id + "|" + name) == id
    ensures MerchantNameField(id + "|" + name) == Some(name)
  {
    SplitAtSeparator(id, '|', name);
    SplitWithoutSeparator(name, '|');
  }

  /** Fields after the name are ignored. */
  lemma ScanIgnoresExtraFields(id: string, name: string, rest: string)
    requires '|' !in id && '|' !in name
    ensures MerchantIdField(id + "|" + name + "|" + rest) == id
    ensures MerchantNameField(id + "|" + name + "|" + rest) == Some(name)
  {
    SplitAtSeparator(id, '|', name + "|" + rest);
    SplitAtSeparator(name, '|', rest);
    assert id + "|" + name + "|" + rest == id + ['|'] + (name + "|" + rest);
    assert name + "|" + rest == name + ['|'] + rest;
  }

  /** A code without '|' is taken whole as the id, and the name is undefined. */
  lemma ScanWithoutSeparator(data: string)
    requires '|' !in data
    ensures MerchantIdField(data) == data
    ensures MerchantNameField(data) == None
  {
    SplitWithoutSeparator(data, '|');
  }

  /** The text of the "Merchant Found" alert; a missing name prints as
      "undefined". */
  function MerchantFoundMessage(data: string): string {
    var name := MerchantNameField(data);
    "Name: " + (if name.Some? then name.value else "undefined") + "\nID: " + MerchantIdField(data)
  }

  /** The text of the "Confirm Payment" prompt. */
  function ConfirmMessage(currency: PayCurrency, amount: string, merchantId: string): string {
    "Are you sure you want to pay " + CurrencyCode(currency) + " " + amount + " to merchant " + merchantId + "?"
  }

  /** The screen's state. */
  class PayScreen {
    var scanned: bool
    var showScanner: bool
    var merchantId: string
    var amount: string
    var currency: PayCurrency

    constructor ()
      ensures !scanned && !showScanner && merchantId == "" && amount == "" && currency == SmartPay
    {
      scanned := false;
      showScanner := false;
      merchantId := "";
      amount := "";
      currency := SmartPay;
    }

    /** Typing in the merchant id field. */
    method EnterMerchantId(text: string)
      modifies this`merchantId
      ensures merchantId == text
    {
      merchantId := text;
    }

    /** Typing in the amount field. */
    method EnterAmount(text: string)
      modifies this`amount
      ensures amount == text
    {
      amount := text;
    }

    /** One of the two currency buttons. */
    method ChooseCurrency(c: PayCurrency)
      modifies this`currency
      ensures currency == c
    {
      currency := c;
    }

    /** The "Scan QR Code" button as written: it shows the scanner but leaves
        `scanned` as it is, so after a read the scanner it shows is disarmed. */
    method OpenScannerAsWritten()
      modifies this`showScanner
      ensures showScanner && scanned == old(scanned)
    {
      showScanner := true;
    }

    /** The "Scan QR Code" button as evidently intended: it shows the scanner
        armed, as the Close button leaves it. */
    method OpenScanner()
      modifies this`showScanner, this`scanned
      ensures showScanner && !scanned
    {
      showScanner := true;
      scanned := false;
    }

    /** The scanner's Close button: the scanner hides and will read again. */
    method CloseScanner()
      modifies this`showScanner, this`scanned
      ensures !showScanner && !scanned
    {
      showScanner := false;
      scanned := false;
    }

    /** A code read by the camera. The camera is on screen only while the
        scanner shows, and it passes codes on only while `scanned` is false:
        then the code is marked read, the scanner hides, the merchant id takes
        the code's first field and the "Merchant Found" alert text is returned.
        Otherwise the code is ignored. */
    method HandleBarCodeScanned(data: string) returns (message: Option<string>)
      requires showScanner
      modifies this`scanned, this`showScanner, this`merchantId
      ensures old(scanned) ==> message.None? && scanned && showScanner && merchantId == old(merchantId)
      ensures !old(scanned) ==> scanned && !showScanner && merchantId == MerchantIdField(data)
      ensures !old(scanned) ==> message == Some(MerchantFoundMessage(data))
    {
      if scanned {
        message := None;
      } else {
        var parts := Split(data, '|');
        scanned := true;
        showScanner := false;
        merchantId := parts[0];
        message := Some(MerchantFoundMessage(data));
      }
    }

    /** `handlePay`: the confirmation prompt when the form is valid, and
        nothing (the validation alert) otherwise; the form is not changed. */
    method HandlePay() returns (prompt: Option<string>)
      ensures prompt.Some? <==> ValidateInput(merchantId, amount) == Valid
      ensures prompt.Some? ==> prompt.value == ConfirmMessage(currency, amount, merchantId)
    {
      if ValidateInput(merchantId, amount) != Valid {
        prompt := None;
      } else {
        prompt := Some(ConfirmMessage(currency, amount, merchantId));
      }
    }
  }

  /** A code "id|name" fills in an id the validation accepts whenever the id
      holds something other than whitespace. */
  lemma ScannedMerchantPassesValidation(id: string, name: string, amount: string)
    requires '|' !in id && '|' !in name && !AllSpace(id)
    ensures ValidateInput(MerchantIdField(id + "|" + name), amount) != MissingMerchant
  {
    ScanIdAndName(id, name);
  }

  /** With the scan button as written, a second code read after reopening the
      scanner is ignored: the merchant id stays the first code's, and no
      alert is raised. */
  method SecondScanIgnoredAsWritten(first: string, second: string) returns (id: string, alerted: bool)
    ensures id == MerchantIdField(first) && !alerted
  {
    var screen := new PayScreen();
    screen.OpenScannerAsWritten();
    var m1 := screen.HandleBarCodeScanned(first);
    screen.OpenScannerAsWritten();
    var m2 := screen.HandleBarCodeScanned(second);
    id := screen.merchantId;
    alerted := m2.Some?;
  }

  /** With the scan button re-arming the scanner, a second code read after
      reopening it replaces the merchant id and raises its alert. */
  method SecondScanRead(first: string, second: string) returns (id: string, message: Option<string>)
    ensures id == MerchantIdField(second) && message == Some(MerchantFoundMessage(second))
  {
    var screen := new PayScreen();
    screen.OpenScanner();
    var m1 := screen.HandleBarCodeScanned(first);
    screen.OpenScanner();
    message := screen.HandleBarCodeScanned(second);
    id := screen.merchantId;
  }
}
