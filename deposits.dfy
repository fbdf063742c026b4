/**
 * The deposits page: a payment method, an amount of at least 10, and a
 * deposit that credits the amount less the method's processing fee. The
 * page shows the same fee and credit before the deposit as it applies.
 */
module Deposits {
  import opened Wrappers

  const MinDeposit: real := 10.0
  const DefaultAmount: real := 100.0
  const QuickAmounts: seq<real> := [50.0, 100.0, 250.0, 500.0, 1000.0]
  const DepositMethods: seq<string> := ["card", "bank", "btc", "eth"]

  /** The fee rate of a method: 2% by card, 0.5% in bitcoin or ether, nothing otherwise. */
  function FeeRate(selected: Option<string>): (rate: real)
    ensures selected == Some("card") ==> rate == 0.02
    ensures selected == Some("btc") || selected == Some("eth") ==> rate == 0.005
    ensures selected != Some("card") && selected != Some("btc") && selected != Some("eth") ==> rate == 0.0
  {
    if selected == Some("card") then 0.02
    else if selected == Some("btc") || selected == Some("eth") then 0.005
    else 0.0
  }

  /** The processing fee the breakdown shows and the deposit deducts. */
  function Fee(amount: real, selected: Option<string>): (fee: real)
    ensures amount >= 0.0 ==> 0.0 <= fee <= 0.02 * amount
    ensures selected.None? || selected.value !in {"card", "btc", "eth"} ==> fee == 0.0
  {
    amount * FeeRate(selected)
  }

  /** The amount credited to the balance: the fee and the credit add up to the deposit. */
  function Credit(amount: real, selected: Option<string>): (credit: real)
    ensures credit + Fee(amount, selected) == amount
    ensures amount >= 0.0 ==> 0.98 * amount <= credit <= amount
  {
    amount - Fee(amount, selected)
  }

  /** A bank transfer credits the whole amount. */
  lemma BankTransferIsFree(amount: real)
    ensures Credit(amount, Some("bank")) == amount
  {
  }

  /** `!selectedMethod || !amount || amount < 10` refuses the deposit. */
  predicate DepositAllowed(selected: Option<string>, amount: real) {
    selected.Some? && selected.value != "" && amount != 0.0 && amount >= MinDeposit
  }

  /** The amount field: the typed whole number, but never below 10. */
  function AmountInput(parsed: Option<int>): (amount: real)
    ensures amount >= MinDeposit
    ensures parsed.Some? && parsed.value as real >= MinDeposit ==> amount == parsed.value as real
    ensures parsed.None? ==> amount == MinDeposit
    ensures parsed.Some? && (parsed.value as real) < MinDeposit ==> amount == MinDeposit
  {
    var typed := if parsed.Some? then parsed.value as real else 0.0;
    if typed > MinDeposit then typed else MinDeposit
  }

  class DepositsPage {
    /** The signed-in user's balance; None when nobody is signed in. */
    var balance: Option<real>
    var selected: Option<string>
    var amount: real
    var processing: bool

    ghost predicate Valid()
      reads this
    {
      (balance.Some? ==> balance.value >= 0.0) && amount >= MinDeposit
    }

    constructor (user: Option<real>)
      requires user.Some? ==> user.value >= 0.0
      ensures Valid()
      ensures balance == user && selected == None && amount == DefaultAmount && !processing
    {
      balance := user;
      selected := None;
      amount := DefaultAmount;
      processing := false;
    }

    method SelectMethod(id: string)
      requires Valid() && id in DepositMethods
      modifies this
      ensures Valid()
      ensures selected == Some(id) && balance == old(balance) && amount == old(amount) && processing == old(processing)
    {
      selected := Some(id);
    }

    method TypeAmount(parsed: Option<int>)
      requires Valid()
      modifies this
      ensures Valid()
      ensures amount == AmountInput(parsed)
      ensures balance == old(balance) && selected == old(selected) && processing == old(processing)
    {
      amount := AmountInput(parsed);
    }

    method PickQuickAmount(k: nat)
      requires Valid() && k < |QuickAmounts|
      modifies this
      ensures Valid()
      ensures amount == QuickAmounts[k]
      ensures balance == old(balance) && selected == old(selected) && processing == old(processing)
    {
      amount := QuickAmounts[k];
    }

    /**
     * handleDeposit in Deposits.tsx, run to completion: credits the amount
     * less the fee to a signed-in user and resets the form. `credited` is
     * the amount the confirmation shows, None when the deposit is refused.
     */
    method Deposit() returns (credited: Option<real>)
      requires Valid()
      modifies this
      ensures Valid()
      ensures !DepositAllowed(old(selected), old(amount)) ==> credited == None && unchanged(this)
      ensures DepositAllowed(old(selected), old(amount)) ==>
        && credited == Some(Credit(old(amount), old(selected)))
        && balance == (if old(balance).Some? then Some(old(balance).value + credited.value) else None)
        && amount == DefaultAmount && selected == None && !processing
    {
      if !(selected.Some? && selected.value != "" && amount != 0.0 && amount >= MinDeposit) {
        return None;
      }
      processing := true;
      var finalAmount := Credit(amount, selected);
      if balance.Some? {
        balance := Some(balance.value + finalAmount);
      }
      processing := false;
      amount := DefaultAmount;
      selected := None;
      credited := Some(finalAmount);
    }
  }
}
