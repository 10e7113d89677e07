/** The request validator: the express-validator rule chains of the buy,
    sell, deposit and withdraw endpoints, the error sanitiser, the
    per-symbol minimum amounts and the ordered checks of validateTransaction.
    Every member here is a pure function of its arguments. */
module Validator {
  import opened Common

  /** An entry of express-validator's error list, as the rule chains produce it. */
  datatype RawError = RawError(param: string, msg: string, value: string, location: string)

  /** What survives sanitizing: the field name and the message. */
  datatype FieldError = FieldError(param: string, msg: string)

  // ---------------------------------------------------------------------
  // Rule chains

  /** `check(field).not().isEmpty()`: a missing field reads as the empty string. */
  predicate NotEmpty(field: Option<string>)
  {
    field.Some? && field.value != ""
  }

  /** `check(field).isFloat({ min })`. */
  predicate FloatAtLeast(field: Option<real>, min: real)
  {
    field.Some? && field.value >= min
  }

  /** `check(field).isIn(choices)`. */
  predicate IsIn(field: Option<string>, choices: seq<string>)
  {
    field.Some? && field.value in choices
  }

  const PurchaseMethods: seq<string> := ["credit_card", "bank_transfer", "balance"]
  const DepositMethods: seq<string> := ["credit_card", "bank_transfer", "paypal"]
  const WithdrawMethods: seq<string> := ["bank_transfer", "paypal", "crypto"]

  /** The smallest amount the buy and sell rule chains let through. */
  const MinTradeAmount: real := 0.000001

  function Check(ok: bool, param: string, msg: string): seq<FieldError>
  {
    if ok then [] else [FieldError(param, msg)]
  }

  /** cryptoPurchaseValidation: the errors, in the order of the chain. */
  function PurchaseErrors(symbol: Option<string>, amount: Option<real>, paymentMethod: Option<string>): (e: seq<FieldError>)
    ensures e == [] <==>
      NotEmpty(symbol) && FloatAtLeast(amount, MinTradeAmount) && IsIn(paymentMethod, PurchaseMethods)
    ensures |e| <= 3
  {
    Check(NotEmpty(symbol), "symbol", "Cryptocurrency symbol is required")
    + Check(FloatAtLeast(amount, MinTradeAmount), "amount", "Amount must be a positive number")
    + Check(IsIn(paymentMethod, PurchaseMethods), "paymentMethod", "Payment method is required")
  }

  /** cryptoSellValidation. */
  function SellErrors(symbol: Option<string>, amount: Option<real>): (e: seq<FieldError>)
    ensures e == [] <==> NotEmpty(symbol) && FloatAtLeast(amount, MinTradeAmount)
  {
    Check(NotEmpty(symbol), "symbol", "Cryptocurrency symbol is required")
    + Check(FloatAtLeast(amount, MinTradeAmount), "amount", "Amount must be a positive number")
  }

  /** depositValidation. */
  function DepositErrors(amount: Option<real>, paymentMethod: Option<string>): (e: seq<FieldError>)
    ensures e == [] <==> FloatAtLeast(amount, 1.0) && IsIn(paymentMethod, DepositMethods)
  {
    Check(FloatAtLeast(amount, 1.0), "amount", "Amount must be a positive number")
    + Check(IsIn(paymentMethod, DepositMethods), "paymentMethod", "Payment method is required")
  }

  /** withdrawValidation. */
  function WithdrawErrors(amount: Option<real>, withdrawMethod: Option<string>, accountDetails: Option<string>): (e: seq<FieldError>)
    ensures e == [] <==>
      FloatAtLeast(amount, 1.0) && IsIn(withdrawMethod, WithdrawMethods) && NotEmpty(accountDetails)
  {
    Check(FloatAtLeast(amount, 1.0), "amount", "Amount must be a positive number")
    + Check(IsIn(withdrawMethod, WithdrawMethods), "withdrawMethod", "Withdrawal method is required")
    + Check(NotEmpty(accountDetails), "accountDetails", "Account details are required")
  }

  // ---------------------------------------------------------------------
  // sanitizeErrors

  /** Keeps only `param` and `msg` of every error; `null` stays `null`
      (an empty list is truthy in the source and maps to the empty list). */
  function SanitizeErrors(errors: Option<seq<RawError>>): (r: Option<seq<FieldError>>)
    ensures r.None? <==> errors.None?
    ensures r.Some? ==> |r.value| == |errors.value|
    ensures r.Some? ==> forall i :: 0 <= i < |r.value| ==>
      r.value[i] == FieldError(errors.value[i].param, errors.value[i].msg)
  {
    match errors
    case None => None
    case Some(es) => Some(Sanitize(es))
  }

  function Sanitize(es: seq<RawError>): (r: seq<FieldError>)
    ensures |r| == |es|
    ensures forall i :: 0 <= i < |es| ==> r[i] == FieldError(es[i].param, es[i].msg)
  {
    if es == [] then [] else [FieldError(es[0].param, es[0].msg)] + Sanitize(es[1..])
  }

  /** Two error lists that differ only in the fields the sanitiser drops
      (the submitted value and its location) sanitize to the same list. */
  lemma SanitizeHidesValues(a: seq<RawError>, b: seq<RawError>)
    requires |a| == |b|
    requires forall i :: 0 <= i < |a| ==> a[i].param == b[i].param && a[i].msg == b[i].msg
    ensures SanitizeErrors(Some(a)) == SanitizeErrors(Some(b))
  {
    var ra, rb := Sanitize(a), Sanitize(b);
    assert |ra| == |rb|;
    forall i | 0 <= i < |ra| ensures ra[i] == rb[i] { }
    assert ra == rb;
  }

  // ---------------------------------------------------------------------
  // validateCryptoAmount

  /** The per-symbol minimum, with the default for every symbol not listed. */
  function MinimumAmount(symbol: string): (m: real)
    ensures m >= MinTradeAmount
  {
    if symbol == "BTC" then 0.00001
    else if symbol == "ETH" then 0.0001
    else if symbol == "XRP" || symbol == "ADA" || symbol == "DOGE" then 1.0
    else MinTradeAmount
  }

  /** `amount >= minAmount`; an absent amount compares false. */
  predicate ValidateCryptoAmount(symbol: string, amount: Option<real>)
  {
    amount.Some? && amount.value >= MinimumAmount(symbol)
  }

  /** The table, entry by entry: exactly the amounts at or above the listed
      minimum pass, and unlisted symbols use the default 0.000001. */
  lemma MinimumTable(amount: real)
    ensures ValidateCryptoAmount("BTC", Some(amount)) <==> amount >= 0.00001
    ensures ValidateCryptoAmount("ETH", Some(amount)) <==> amount >= 0.0001
    ensures ValidateCryptoAmount("XRP", Some(amount)) <==> amount >= 1.0
    ensures ValidateCryptoAmount("ADA", Some(amount)) <==> amount >= 1.0
    ensures ValidateCryptoAmount("DOGE", Some(amount)) <==> amount >= 1.0
    ensures forall s :: s !in ["BTC", "ETH", "XRP", "ADA", "DOGE"] ==>
      (ValidateCryptoAmount(s, Some(amount)) <==> amount >= 0.000001)
  {
  }

  /** Every per-symbol minimum is at least the rule chains' minimum, so an
      amount the table accepts also passes the amount rule of the buy and
      sell chains, and is positive; and acceptance is upward closed. */
  lemma CryptoAmountImpliesRule(symbol: string, amount: Option<real>, larger: real)
    requires ValidateCryptoAmount(symbol, amount)
    ensures FloatAtLeast(amount, MinTradeAmount) && amount.value > 0.0
    ensures larger >= amount.value ==> ValidateCryptoAmount(symbol, Some(larger))
  {
  }

  // ---------------------------------------------------------------------
  // validateWalletAddress

  /** The symbols for which the source has an address pattern. */
  const PatternSymbols: seq<string> := ["BTC", "ETH", "XRP", "LTC", "BCH", "DOGE"]

  /** `patternTest(symbol, address)` stands for the regular expression of
      `symbol` tested against `address`; it is only consulted for a symbol
      that has a pattern, every other symbol accepts any address. */
  predicate ValidateWalletAddress(symbol: string, address: string, patternTest: (string, string) -> bool)
  {
    symbol !in PatternSymbols || patternTest(symbol, address)
  }

  // ---------------------------------------------------------------------
  // validateTransaction

  datatype TransactionDetails = TransactionDetails(
    kind: string, amount: Option<real>, symbol: Option<string>, address: Option<string>)

  datatype Verdict = Valid | Invalid(error: string)

  const TransactionTypes: seq<string> := ["buy", "sell", "transfer", "deposit", "withdraw"]
  const CryptoTypes: seq<string> := ["buy", "sell", "transfer"]

  const InvalidTypeMsg: string := "Invalid transaction type"
  const NonPositiveMsg: string := "Amount must be greater than zero"

  function BelowMinimumMsg(symbol: string): string { "Amount is below minimum for " + symbol }
  function BadAddressMsg(symbol: string): string { "Invalid " + symbol + " wallet address" }

  /** `amount <= 0`: false for an absent amount, as `undefined <= 0` is. */
  predicate NotPositive(amount: Option<real>)
  {
    amount.Some? && amount.value <= 0.0
  }

  /** The checks of validateTransaction, in the source's order, each
      returning at the first failure. */
  function ValidateTransaction(d: TransactionDetails, patternTest: (string, string) -> bool): (v: Verdict)
    ensures d.kind !in TransactionTypes ==> v == Invalid(InvalidTypeMsg)
    ensures d.kind in TransactionTypes && NotPositive(d.amount) ==> v == Invalid(NonPositiveMsg)
    ensures v.Valid? ==> d.kind in TransactionTypes && !NotPositive(d.amount)
    ensures v.Valid? && d.kind in CryptoTypes && Truthy(d.symbol) ==>
      ValidateCryptoAmount(d.symbol.value, d.amount)
    ensures v.Valid? && d.kind == "transfer" && Truthy(d.symbol) && Truthy(d.address) ==>
      ValidateWalletAddress(d.symbol.value, d.address.value, patternTest)
  {
    if d.kind !in TransactionTypes then Invalid(InvalidTypeMsg)
    else if NotPositive(d.amount) then Invalid(NonPositiveMsg)
    else if d.kind in CryptoTypes && Truthy(d.symbol) then
      if !ValidateCryptoAmount(d.symbol.value, d.amount) then Invalid(BelowMinimumMsg(d.symbol.value))
      else if d.kind == "transfer" && Truthy(d.address)
              && !ValidateWalletAddress(d.symbol.value, d.address.value, patternTest)
      then Invalid(BadAddressMsg(d.symbol.value))
      else Valid
    else Valid
  }

  /** Deposits, withdrawals and symbol-less requests skip the minimum and
      the address checks: once the type is known they are valid exactly when
      the amount is not a non-positive number. */
  lemma NonCryptoSkipsMinimum(d: TransactionDetails, patternTest: (string, string) -> bool)
    requires d.kind in TransactionTypes
    requires d.kind == "deposit" || d.kind == "withdraw" || !Truthy(d.symbol)
    ensures ValidateTransaction(d, patternTest).Valid? <==> !NotPositive(d.amount)
  {
    assert d.kind == "deposit" || d.kind == "withdraw" ==> d.kind !in CryptoTypes;
  }

  /** A buy, sell or transfer naming a symbol with an amount below that
      symbol's minimum is refused with the minimum message, whatever the
      address. */
  lemma BelowMinimumRejected(d: TransactionDetails, patternTest: (string, string) -> bool)
    requires d.kind in CryptoTypes && Truthy(d.symbol)
    requires !NotPositive(d.amount) && !ValidateCryptoAmount(d.symbol.value, d.amount)
    ensures ValidateTransaction(d, patternTest) == Invalid(BelowMinimumMsg(d.symbol.value))
  {
    assert d.kind in TransactionTypes;
  }

  /** A transfer that clears the amount checks fails only on its address,
      and only when the symbol has a pattern that the address does not meet. */
  lemma TransferAddressCheck(d: TransactionDetails, patternTest: (string, string) -> bool)
    requires d.kind == "transfer" && Truthy(d.symbol) && ValidateCryptoAmount(d.symbol.value, d.amount)
    ensures ValidateTransaction(d, patternTest).Invalid? <==>
      Truthy(d.address) && d.symbol.value in PatternSymbols && !patternTest(d.symbol.value, d.address.value)
    ensures d.symbol.value !in PatternSymbols ==> ValidateTransaction(d, patternTest) == Valid
  {
    assert d.kind in TransactionTypes && d.kind in CryptoTypes;
  }

  /** A request with no failing check is valid. */
  lemma NoFailingCheckIsValid(d: TransactionDetails, patternTest: (string, string) -> bool)
    requires d.kind in TransactionTypes && !NotPositive(d.amount)
    requires d.kind in CryptoTypes && Truthy(d.symbol) ==> ValidateCryptoAmount(d.symbol.value, d.amount)
    requires d.kind == "transfer" && Truthy(d.symbol) && Truthy(d.address) ==>
      ValidateWalletAddress(d.symbol.value, d.address.value, patternTest)
    ensures ValidateTransaction(d, patternTest) == Valid
  {
  }

  /** The two layers disagree: 0.000001 BTC paid from the balance passes the
      purchase rule chain, yet validateTransaction refuses it as a buy. */
  lemma PurchaseRuleLooserThanMinimum(patternTest: (string, string) -> bool)
    ensures PurchaseErrors(Some("BTC"), Some(0.000001), Some("balance")) == []
    ensures ValidateTransaction(TransactionDetails("buy", Some(0.000001), Some("BTC"), None), patternTest)
      == Invalid(BelowMinimumMsg("BTC"))
  {
    assert IsIn(Some("balance"), PurchaseMethods) by { assert PurchaseMethods[2] == "balance"; }
    assert "buy" in TransactionTypes && "buy" in CryptoTypes by { assert TransactionTypes[0] == "buy" && CryptoTypes[0] == "buy"; }
  }

  /** A buy or sell that validateTransaction accepts with a symbol passes the
      amount rule of the buy and sell chains as well. */
  lemma ValidTradePassesAmountRule(d: TransactionDetails, patternTest: (string, string) -> bool)
    requires d.kind == "buy" || d.kind == "sell"
    requires Truthy(d.symbol)
    requires ValidateTransaction(d, patternTest).Valid?
    ensures FloatAtLeast(d.amount, MinTradeAmount)
  {
    assert d.kind in CryptoTypes;
    CryptoAmountImpliesRule(d.symbol.value, d.amount, d.amount.value);
  }
}
