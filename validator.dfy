/**
  Request-field validators: the amount cap, the currency allow-list and the
  user-id check.
 */
module Validator {
  import opened Records

  /** The cap on an amount, in the unit the caller submits it (dollars). */
  const MaxAmount: int := 1000000

  /** The accepted currency codes, in lower case. */
  const Currencies: seq<string> := ["usd", "eur", "gbp", "cad", "aud"]

  /**
    `validateAmount`: a positive amount no larger than the cap. An accepted
    amount is stored as a whole number of dollars' worth of cents.
   */
  predicate ValidateAmount(amount: int): (ok: bool)
    ensures ok ==> 100 <= Cents(amount) <= 100 * MaxAmount
  {
    amount > 0 && amount <= MaxAmount
  }

  /** An amount in dollars converted to cents, as the create handler stores it. */
  function Cents(amount: int): int {
    amount * 100
  }

  /**
    The cap applies to the dollar amount, before the conversion to cents, so
    an accepted amount is stored as 100 to 100000000 cents rather than at most
    1000000 cents.
   */
  lemma AmountCapAppliesToDollars(amount: int)
    ensures ValidateAmount(amount) <==> 100 <= Cents(amount) <= 100 * MaxAmount && Cents(amount) % 100 == 0
    ensures !ValidateAmount(0) && ValidateAmount(1) && ValidateAmount(MaxAmount) && !ValidateAmount(MaxAmount + 1)
    ensures ValidateAmount(MaxAmount) && Cents(MaxAmount) > MaxAmount
  {
  }

  /** ASCII lower-casing of one character. */
  function LowerChar(c: char): char {
    if 'A' <= c <= 'Z' then (c as int + 32) as char else c
  }

  /** `toLowerCase` on the ASCII range: each character lower-cased in place. */
  function ToLower(s: string): (r: string)
    ensures |r| == |s|
    ensures forall i :: 0 <= i < |s| ==> r[i] == LowerChar(s[i])
  {
    if s == [] then [] else ToLower(s[..|s| - 1]) + [LowerChar(s[|s| - 1])]
  }

  lemma {:induction false} ToLowerIdempotent(s: string)
    ensures ToLower(ToLower(s)) == ToLower(s)
  {
    var once := ToLower(s);
    assert forall i :: 0 <= i < |once| ==> LowerChar(once[i]) == once[i];
  }

  /** `validateCurrency`: the lower-cased code is one of the five accepted ones. */
  predicate ValidateCurrency(currency: string): (ok: bool)
    ensures ok ==> |currency| == 3
  {
    ToLower(currency) in Currencies
  }

  /** Validation ignores case: a code and its lower-cased form are accepted together. */
  lemma ValidateCurrencyIgnoresCase(currency: string)
    ensures ValidateCurrency(currency) == ValidateCurrency(ToLower(currency))
  {
    ToLowerIdempotent(currency);
  }

  /** Every accepted code has three letters, whatever its case. */
  lemma AcceptedCurrencyShape(currency: string)
    requires ValidateCurrency(currency)
    ensures |currency| == 3
    ensures forall i :: 0 <= i < 3 ==> 'a' <= LowerChar(currency[i]) <= 'z'
  {
    var low := ToLower(currency);
    assert low in Currencies;
    assert forall i :: 0 <= i < 3 ==> low[i] == LowerChar(currency[i]);
  }

  /** Codes of the list are accepted in upper, lower and mixed case. */
  lemma ValidateCurrencyAcceptsAnyCase()
    ensures ValidateCurrency("USD") && ValidateCurrency("usd") && ValidateCurrency("Eur")
    ensures ValidateCurrency("GBP") && ValidateCurrency("cad") && ValidateCurrency("AUD")
  {
    assert ToLower("USD") == "usd" by { assert ToLower("USD")[0] == 'u'; }
    assert ToLower("Eur") == "eur";
    assert ToLower("GBP") == "gbp";
    assert ToLower("cad") == "cad";
    assert ToLower("AUD") == "aud";
  }

  /** Codes outside the list, and the empty code, are refused. */
  lemma ValidateCurrencyRejectsOthers()
    ensures !ValidateCurrency("jpy") && !ValidateCurrency("") && !ValidateCurrency("usdx")
  {
    assert ToLower("jpy") == "jpy";
    assert |ToLower("usdx")| == 4;
  }

  /**
    `validateUserId`: a string of length at least one. A value of another
    JSON type is `None`.
   */
  predicate ValidateUserId(userId: Option<string>): (ok: bool)
    // a valid user id is exactly a field the handlers treat as present
    ensures ok <==> Present(userId)
  {
    userId.Some? && |userId.value| > 0
  }
}
