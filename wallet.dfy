/**
  The wallet screen's bookkeeping: a balance per currency, the list of
  transactions, and the deposit/withdraw form. The remote calls, the stored
  token, the clock and the random id suffix are parameters of the methods.
 */
module Wallet {
  import opened Options
  import opened JsNumber
  import JsText

  /** The wallet picker's currencies, "SMART_PAY" and "LOCAL_CURRENCY". */
  datatype Currency = SmartPay | LocalCurrency

  /** The picker's value; `None` is its placeholder item, whose value is `null`. */
  type Selection = Option<Currency>

  /** The `{ smartPay, localCurrency }` balance record. */
  datatype Balance = Balance(smartPay: real, localCurrency: real)

  function BalanceIn(b: Balance, c: Currency): real {
    match c
    case SmartPay => b.smartPay
    case LocalCurrency => b.localCurrency
  }

  predicate NonNegative(b: Balance) {
    b.smartPay >= 0.0 && b.localCurrency >= 0.0
  }

  /** The balance a withdrawal is checked against: `smartPay` for "SMART_PAY"
      and `localCurrency` for any other selection, the placeholder included. */
  function CheckedBalance(b: Balance, sel: Selection): (r: real)
    ensures sel.Some? ==> r == BalanceIn(b, sel.value)
    ensures sel.None? ==> r == b.localCurrency
  {
    if sel == Some(SmartPay) then b.smartPay else b.localCurrency
  }

  /** `after` is `before` with the selected currency's balance moved by
      `delta` and the other currency's balance as it was. */
  predicate Moved(before: Balance, after: Balance, sel: Selection, delta: real) {
    forall c :: BalanceIn(after, c) == if sel == Some(c) then BalanceIn(before, c) + delta else BalanceIn(before, c)
  }

  /** The functional `setBalance` update of both handlers: the selected
      currency's field moves by `delta`, the other stays; with the placeholder
      selected neither field moves. */
  function Adjust(b: Balance, sel: Selection, delta: real): (r: Balance)
    ensures Moved(b, r, sel, delta)
    ensures sel.None? ==> r == b
  {
    Balance(if sel == Some(SmartPay) then b.smartPay + delta else b.smartPay,
            if sel == Some(LocalCurrency) then b.localCurrency + delta else b.localCurrency)
  }

  /** Moving a balance by `delta` and back restores it. */
  lemma AdjustBack(b: Balance, sel: Selection, delta: real)
    ensures Adjust(Adjust(b, sel, delta), sel, -delta) == b
  {
  }

  /** A withdrawal that passes the balance check leaves a non-negative balance
      non-negative. */
  lemma CheckedWithdrawalStaysNonNegative(b: Balance, sel: Selection, x: real)
    requires NonNegative(b) && 0.0 < x <= CheckedBalance(b, sel)
    ensures NonNegative(Adjust(b, sel, -x))
  {
  }

  /** As written, a non-empty blank amount passes both checks of
      `handleWithdraw`: the amount guard, and the balance check
      `parseFloat(amount) > currentBalance`, which is false for NaN whatever
      the balance. The amount posted is then NaN. */
  lemma BlankWithdrawalPassesChecksAsWritten(amount: string, b: Balance, sel: Selection)
    requires amount != [] && JsText.AllSpace(amount)
    ensures AmountGuardAsWritten(amount)
    ensures !GreaterThan(ParseFloat(amount), CheckedBalance(b, sel))
    ensures ParseFloat(amount) == NaN
  {
    AsWrittenGuardAlsoAcceptsBlank(amount);
  }

  /** One entry of the transaction list. */
  datatype Transaction = Transaction(id: string, transactionType: string, amount: real, timestamp: int, currency: Selection)

  /** The id the screen makes up: `${stamp}-${suffix}`, where `suffix` stands
      for `Math.random().toString(36).substr(2, 9)`. */
  function GeneratedId(stamp: int, suffix: string): (id: string)
    ensures |id| > |suffix| && id[|id| - |suffix| - 1] == '-'
    ensures id[|id| - |suffix|..] == suffix
  {
    IntString(stamp) + "-" + suffix
  }

  /** Ids made up from different stamps, or from different random suffixes
      (base-36 digits, so never '-'), are different. */
  lemma GeneratedIdInjective(a: int, x: string, b: int, y: string)
    requires '-' !in x && '-' !in y
    requires GeneratedId(a, x) == GeneratedId(b, y)
    ensures a == b && x == y
  {
    var s, t := IntString(a), IntString(b);
    var id := GeneratedId(a, x);
    assert id == s + "-" + x == t + "-" + y;
    IntStringShape(a);
    IntStringShape(b);
    assert |s| == |t| by {
      assert id[|s|] == '-' && id[|t|] == '-';
    }
    assert s == id[..|s|] == t;
    assert x == id[|s| + 1..] == y;
    IntStringInjective(a, b);
  }

  /** A transaction as the history endpoint returns it. `altId` is its `_id`;
      `date` is taken to be an instant like `timestamp`. */
  datatype FetchedTransaction = FetchedTransaction(
    id: Option<string>, altId: Option<string>, transactionType: string, amount: real,
    timestamp: Option<int>, date: Option<int>, currency: Selection)

  /** JavaScript truthiness of a possibly missing string or number. */
  predicate TruthyText(x: Option<string>) {
    x.Some? && x.value != []
  }

  predicate TruthyStamp(x: Option<int>) {
    x.Some? && x.value != 0
  }

  /** The per-record map of the history fetch: the id is `id`, else `_id`,
      else a generated one (stamped with `timestamp`, else now); the timestamp
      is `timestamp`, else `date`, else now; every other field is kept. */
  function Normalize(t: FetchedTransaction, now: int, suffix: string): (r: Transaction)
    ensures r.transactionType == t.transactionType && r.amount == t.amount && r.currency == t.currency
    ensures r.id != []
    ensures TruthyText(t.id) ==> r.id == t.id.value
    ensures !TruthyText(t.id) && TruthyText(t.altId) ==> r.id == t.altId.value
    ensures !TruthyText(t.id) && !TruthyText(t.altId) ==>
              r.id == GeneratedId(if TruthyStamp(t.timestamp) then t.timestamp.value else now, suffix)
    ensures TruthyStamp(t.timestamp) ==> r.timestamp == t.timestamp.value
    ensures !TruthyStamp(t.timestamp) && TruthyStamp(t.date) ==> r.timestamp == t.date.value
    ensures !TruthyStamp(t.timestamp) && !TruthyStamp(t.date) ==> r.timestamp == now
    ensures now != 0 ==> r.timestamp != 0
  {
    var id :=
      if TruthyText(t.id) then t.id.value
      else if TruthyText(t.altId) then t.altId.value
      else GeneratedId(if TruthyStamp(t.timestamp) then t.timestamp.value else now, suffix);
    var stamp :=
      if TruthyStamp(t.timestamp) then t.timestamp.value
      else if TruthyStamp(t.date) then t.date.value
      else now;
    Transaction(id, t.transactionType, t.amount, stamp, t.currency)
  }

  /** A normalised record as the endpoint would send it back. */
  function AsFetched(t: Transaction): FetchedTransaction {
    FetchedTransaction(Some(t.id), None, t.transactionType, t.amount, Some(t.timestamp), None, t.currency)
  }

  /** Normalising is idempotent: a record that has been through it once comes
      back unchanged, whatever the clock and the random suffix then are. */
  lemma NormalizeIdempotent(t: FetchedTransaction, now: int, suffix: string, later: int, otherSuffix: string)
    requires now != 0
    ensures Normalize(AsFetched(Normalize(t, now, suffix)), later, otherSuffix) == Normalize(t, now, suffix)
  {
  }

  /** The history fetch's `map`: one record per fetched record, in the same
      order, the i-th drawing the i-th random suffix. */
  function NormalizeAll(batch: seq<FetchedTransaction>, now: int, suffixes: nat -> string): (r: seq<Transaction>)
    ensures |r| == |batch|
    ensures forall i :: 0 <= i < |batch| ==> r[i] == Normalize(batch[i], now, suffixes(i))
  {
    seq(|batch|, i requires 0 <= i < |batch| => Normalize(batch[i], now, suffixes(i)))
  }

  /** The list as displayed: `[...transactions].reverse()`, newest first. */
  function Displayed(ts: seq<Transaction>): (d: seq<Transaction>)
    ensures |d| == |ts|
    ensures forall i :: 0 <= i < |ts| ==> d[i] == ts[|ts| - 1 - i]
  {
    if ts == [] then [] else [ts[|ts| - 1]] + Displayed(ts[..|ts| - 1])
  }

  /** A record appended to the list is displayed first, above the others in
      their previous order. */
  lemma DisplayedAppend(ts: seq<Transaction>, t: Transaction)
    ensures Displayed(ts + [t]) == [t] + Displayed(ts)
  {
    assert (ts + [t])[..|ts|] == ts;
  }

  /** Reversing the displayed list gives the stored list back. */
  lemma DisplayedTwice(ts: seq<Transaction>)
    ensures Displayed(Displayed(ts)) == ts
  {
  }

  /** The fields of the balance reply; a missing field is `None`. */
  datatype BalanceReply = BalanceReply(smartPayBalance: Option<real>, localCurrencyBalance: Option<real>)

  /** What a handler ends with: the alert it raises. */
  datatype Outcome = Succeeded | InvalidAmount | LoginRequired | InsufficientBalance | RemoteFailed

  /** The part of the screen's state the two handlers change. */
  datatype Ledger = Ledger(balance: Balance, transactions: seq<Transaction>)

  /** A handler's outcome and the ledger it leaves. */
  datatype Step = Step(outcome: Outcome, ledger: Ledger)

  /** `after` is `before` with `t` added at the end. */
  predicate AppendedOne(before: seq<Transaction>, after: seq<Transaction>, t: Transaction) {
    |after| == |before| + 1 && after[..|before|] == before && after[|before|] == t
  }

  /** `handleDeposit` on the ledger, given what the amount text parses to
      (`PositiveAmount`): the amount must be a positive number and a token must
      be stored before the request goes out; only a successful request
      credits the selected currency and records a "Deposit". */
  function DepositStep(l: Ledger, parsed: Option<real>, sel: Selection, hasToken: bool, posted: bool,
                       stamp: int, suffix: string): (r: Step)
    ensures parsed.None? ==> r == Step(InvalidAmount, l)
    ensures parsed.Some? && !hasToken ==> r == Step(LoginRequired, l)
    ensures parsed.Some? && hasToken && !posted ==> r == Step(RemoteFailed, l)
    ensures r.outcome == Succeeded <==> parsed.Some? && hasToken && posted
    ensures r.outcome == Succeeded ==>
              && Moved(l.balance, r.ledger.balance, sel, parsed.value)
              && AppendedOne(l.transactions, r.ledger.transactions,
                             Transaction(GeneratedId(stamp, suffix), "Deposit", parsed.value, stamp, sel))
  {
    if parsed.None? then Step(InvalidAmount, l)
    else if !hasToken then Step(LoginRequired, l)
    else if !posted then Step(RemoteFailed, l)
    else
      var x := parsed.value;
      var t := Transaction(GeneratedId(stamp, suffix), "Deposit", x, stamp, sel);
      assert (l.transactions + [t])[..|l.transactions|] == l.transactions;
      Step(Succeeded, Ledger(Adjust(l.balance, sel, x), l.transactions + [t]))
  }

  /** `handleWithdraw` on the ledger, given what the amount text parses to:
      the amount must be a positive number no larger than the checked balance;
      there is no token check; only a successful request debits the selected
      currency and records a "Withdrawal" of the negated amount. */
  function WithdrawStep(l: Ledger, parsed: Option<real>, sel: Selection, posted: bool,
                        stamp: int, suffix: string): (r: Step)
    ensures parsed.None? ==> r == Step(InvalidAmount, l)
    ensures parsed.Some? && parsed.value > CheckedBalance(l.balance, sel) ==> r == Step(InsufficientBalance, l)
    ensures parsed.Some? && parsed.value <= CheckedBalance(l.balance, sel) && !posted ==> r == Step(RemoteFailed, l)
    ensures r.outcome == Succeeded <==> parsed.Some? && parsed.value <= CheckedBalance(l.balance, sel) && posted
    ensures r.outcome == Succeeded ==>
              && Moved(l.balance, r.ledger.balance, sel, -parsed.value)
              && AppendedOne(l.transactions, r.ledger.transactions,
                             Transaction(GeneratedId(stamp, suffix), "Withdrawal", -parsed.value, stamp, sel))
    ensures r.outcome == Succeeded && parsed.value > 0.0 && NonNegative(l.balance) ==> NonNegative(r.ledger.balance)
  {
    if parsed.None? then Step(InvalidAmount, l)
    else if parsed.value > CheckedBalance(l.balance, sel) then Step(InsufficientBalance, l)
    else if !posted then Step(RemoteFailed, l)
    else
      var x := parsed.value;
      var t := Transaction(GeneratedId(stamp, suffix), "Withdrawal", -x, stamp, sel);
      assert (l.transactions + [t])[..|l.transactions|] == l.transactions;
      assert x > 0.0 && NonNegative(l.balance) ==> NonNegative(Adjust(l.balance, sel, -x)) by {
        if x > 0.0 && NonNegative(l.balance) {
          CheckedWithdrawalStaysNonNegative(l.balance, sel, x);
        }
      }
      Step(Succeeded, Ledger(Adjust(l.balance, sel, -x), l.transactions + [t]))
  }

  /** A deposit that goes through can be withdrawn again at once: with a
      currency selected and a non-negative balance, the withdrawal passes the
      balance check, and the two leave the balance as it was with both
      records in the history. */
  lemma DepositThenWithdraw(l: Ledger, x: real, c: Currency, stamp: int, suffix: string, stamp2: int, suffix2: string)
    requires x > 0.0 && NonNegative(l.balance)
    ensures var d := DepositStep(l, Some(x), Some(c), true, true, stamp, suffix);
            var w := WithdrawStep(d.ledger, Some(x), Some(c), true, stamp2, suffix2);
            && d.outcome == Succeeded && w.outcome == Succeeded
            && w.ledger.balance == l.balance
            && w.ledger.transactions[..|l.transactions|] == l.transactions
            && |w.ledger.transactions| == |l.transactions| + 2
  {
    var d := DepositStep(l, Some(x), Some(c), true, true, stamp, suffix);
    assert CheckedBalance(d.ledger.balance, Some(c)) == BalanceIn(l.balance, c) + x;
    var w := WithdrawStep(d.ledger, Some(x), Some(c), true, stamp2, suffix2);
    AdjustBack(l.balance, Some(c), x);
    assert w.ledger.transactions[..|d.ledger.transactions|] == d.ledger.transactions;
  }

  /** The screen's state. */
  class WalletScreen {
    var balance: Balance
    var transactions: seq<Transaction>
    var modalVisible: bool
    var modalType: string
    var amount: string
    var selectedCurrency: Selection

    constructor ()
      ensures balance == Balance(0.0, 0.0) && transactions == []
      ensures !modalVisible && modalType == "" && amount == "" && selectedCurrency == Some(SmartPay)
    {
      balance := Balance(0.0, 0.0);
      transactions := [];
      modalVisible := false;
      modalType := "";
      amount := "";
      selectedCurrency := Some(SmartPay);
    }

    /** `fetchBalance`: `reply` is `None` when the request fails, and then the
        balance stays; a missing (or zero) field reads as 0. */
    method FetchBalance(reply: Option<BalanceReply>)
      modifies this`balance
      ensures reply.None? ==> balance == old(balance)
      ensures reply.Some? ==> balance == Balance(reply.value.smartPayBalance.GetOr(0.0),
                                                 reply.value.localCurrencyBalance.GetOr(0.0))
    {
      if reply.Some? {
        balance := Balance(reply.value.smartPayBalance.GetOr(0.0), reply.value.localCurrencyBalance.GetOr(0.0));
      }
    }

    /** `fetchTransactions`: `reply` is `None` when the request fails, and then
        the list stays; otherwise the normalised history replaces it wholesale. */
    method FetchTransactions(reply: Option<seq<FetchedTransaction>>, now: int, suffixes: nat -> string)
      modifies this`transactions
      ensures reply.None? ==> transactions == old(transactions)
      ensures reply.Some? ==> transactions == NormalizeAll(reply.value, now, suffixes)
    {
      if reply.Some? {
        transactions := NormalizeAll(reply.value, now, suffixes);
      }
    }

    /** `handleDeposit`. `hasToken` says whether a token is stored, `posted`
        whether the deposit request succeeded, `timestamp` is `Date.now()`.
        On success the form closes and its amount is cleared. */
    method Deposit(hasToken: bool, posted: bool, timestamp: int, suffix: string) returns (outcome: Outcome)
      modifies this`balance, this`transactions, this`modalVisible, this`amount
      ensures var step := DepositStep(Ledger(old(balance), old(transactions)), PositiveAmount(old(amount)), selectedCurrency,
                                      hasToken, posted, timestamp, suffix);
              outcome == step.outcome && Ledger(balance, transactions) == step.ledger
      ensures outcome == Succeeded ==> !modalVisible && amount == ""
      ensures outcome != Succeeded ==> modalVisible == old(modalVisible) && amount == old(amount)
    {
      var step := DepositStep(Ledger(balance, transactions), PositiveAmount(amount), selectedCurrency, hasToken, posted, timestamp, suffix);
      outcome := step.outcome;
      balance := step.ledger.balance;
      transactions := step.ledger.transactions;
      if outcome == Succeeded {
        modalVisible := false;
        amount := "";
      }
    }

    /** `handleWithdraw`. There is no token check: the request goes out with
        whatever is stored, and `posted` says whether it succeeded. On success
        the form closes and its amount is cleared. */
    method Withdraw(posted: bool, timestamp: int, suffix: string) returns (outcome: Outcome)
      modifies this`balance, this`transactions, this`modalVisible, this`amount
      ensures var step := WithdrawStep(Ledger(old(balance), old(transactions)), PositiveAmount(old(amount)), selectedCurrency,
                                       posted, timestamp, suffix);
              outcome == step.outcome && Ledger(balance, transactions) == step.ledger
      ensures outcome == Succeeded ==> !modalVisible && amount == ""
      ensures outcome != Succeeded ==> modalVisible == old(modalVisible) && amount == old(amount)
    {
      var step := WithdrawStep(Ledger(balance, transactions), PositiveAmount(amount), selectedCurrency, posted, timestamp, suffix);
      outcome := step.outcome;
      balance := step.ledger.balance;
      transactions := step.ledger.transactions;
      if outcome == Succeeded {
        modalVisible := false;
        amount := "";
      }
    }

    /** The form's Confirm button: `handleDeposit` when the form was opened as
        "deposit", and `handleWithdraw` for any other kind. */
    method Confirm(hasToken: bool, posted: bool, timestamp: int, suffix: string) returns (outcome: Outcome)
      requires modalVisible
      modifies this`balance, this`transactions, this`modalVisible, this`amount
      ensures modalType == "deposit" ==>
                var step := DepositStep(Ledger(old(balance), old(transactions)), PositiveAmount(old(amount)), selectedCurrency,
                                        hasToken, posted, timestamp, suffix);
                outcome == step.outcome && Ledger(balance, transactions) == step.ledger
      ensures modalType != "deposit" ==>
                var step := WithdrawStep(Ledger(old(balance), old(transactions)), PositiveAmount(old(amount)), selectedCurrency,
                                         posted, timestamp, suffix);
                outcome == step.outcome && Ledger(balance, transactions) == step.ledger
      ensures outcome == Succeeded ==> !modalVisible && amount == ""
      ensures outcome != Succeeded ==> modalVisible && amount == old(amount)
    {
      if modalType == "deposit" {
        outcome := Deposit(hasToken, posted, timestamp, suffix);
      } else {
        outcome := Withdraw(posted, timestamp, suffix);
      }
    }

    /** `openModal(type)`: shows the form with an empty amount and Smart Pay
        selected. */
    method OpenModal(kind: string)
      modifies this`modalType, this`modalVisible, this`amount, this`selectedCurrency
      ensures modalType == kind && modalVisible && amount == "" && selectedCurrency == Some(SmartPay)
    {
      modalType := kind;
      modalVisible := true;
      amount := "";
      selectedCurrency := Some(SmartPay);
    }

    /** Typing in the amount field. */
    method EnterAmount(text: string)
      modifies this`amount
      ensures amount == text
    {
      amount := text;
    }

    /** The currency picker; choosing its placeholder selects `None`. */
    method SelectCurrency(sel: Selection)
      modifies this`selectedCurrency
      ensures selectedCurrency == sel
    {
      selectedCurrency := sel;
    }

    /** The Cancel button and the modal's close request. */
    method CloseModal()
      modifies this`modalVisible
      ensures !modalVisible
    {
      modalVisible := false;
    }
  }
}
