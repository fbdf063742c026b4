/**
 * The withdrawals page: a payout method with its limits, an amount,
 * account details, and a withdrawal that debits the balance. The handler
 * checks only that a method, a non-zero amount and details are given and
 * that the amount does not exceed the balance; the method's minimum is
 * enforced by the button alone.
 */
module Withdrawals {
  import opened Wrappers
  import opened Seqs

  const DefaultAmount: real := 100.0
  const QuickAmounts: seq<real> := [50.0, 100.0, 250.0, 500.0]

  datatype WithdrawalMethod = WithdrawalMethod(id: string, min: real, max: real)

  const WithdrawalMethods: seq<WithdrawalMethod> := [
    WithdrawalMethod("bank", 10.0, 50000.0),
    WithdrawalMethod("card", 10.0, 10000.0),
    WithdrawalMethod("btc", 0.001, 5.0),
    WithdrawalMethod("eth", 0.01, 50.0)
  ]

  function MethodId(m: WithdrawalMethod): string { m.id }

  /** currentMethod: the first listed method with the selected id; None when nothing is selected or nothing matches. */
  function CurrentMethod(selected: Option<string>): (m: Option<WithdrawalMethod>)
    ensures m.Some? ==> m.value in WithdrawalMethods && selected == Some(m.value.id)
    ensures m.None? <==> selected.None? || forall i :: 0 <= i < |WithdrawalMethods| ==> WithdrawalMethods[i].id != selected.value
  {
    if selected.None? then None
    else match FirstIndex(WithdrawalMethods, MethodId, selected.value)
      case None => None
      case Some(i) => Some(WithdrawalMethods[i])
  }

  /** `currentMethod?.max || 0` */
  function MaxOrZero(m: Option<WithdrawalMethod>): real {
    if m.Some? then m.value.max else 0.0
  }

  /** `currentMethod?.min || 0` */
  function MinOrZero(m: Option<WithdrawalMethod>): real {
    if m.Some? then m.value.min else 0.0
  }

  /** `user?.balance || 0` */
  function BalanceOrZero(balance: Option<real>): real {
    if balance.Some? then balance.value else 0.0
  }

  function Min(a: real, b: real): (m: real)
    ensures m <= a && m <= b && (m == a || m == b)
  {
    if a <= b then a else b
  }

  /** The amount field: the typed number capped at the method's maximum (0 with no method). */
  function TypedAmount(parsed: Option<real>, m: Option<WithdrawalMethod>): (amount: real)
    ensures amount <= MaxOrZero(m)
    ensures parsed.Some? && parsed.value <= MaxOrZero(m) ==> amount == parsed.value
    ensures parsed.None? ==> amount == Min(0.0, MaxOrZero(m))
    ensures parsed.Some? && parsed.value > MaxOrZero(m) ==> amount == MaxOrZero(m)
  {
    Min(if parsed.Some? then parsed.value else 0.0, MaxOrZero(m))
  }

  /** A quick amount: capped at the method's maximum and at the balance. */
  function QuickAmount(amt: real, m: Option<WithdrawalMethod>, balance: Option<real>): (amount: real)
    ensures amount <= amt && amount <= MaxOrZero(m) && amount <= BalanceOrZero(balance)
    ensures amt <= MaxOrZero(m) && amt <= BalanceOrZero(balance) ==> amount == amt
    ensures amount == amt || amount == MaxOrZero(m) || amount == BalanceOrZero(balance)
  {
    Min(amt, Min(MaxOrZero(m), BalanceOrZero(balance)))
  }

  /** The withdraw button is enabled. */
  predicate WithdrawEnabled(processing: bool, amount: real, m: Option<WithdrawalMethod>, details: string,
                            balance: Option<real>) {
    !processing && amount >= MinOrZero(m) && details != "" && amount <= BalanceOrZero(balance)
  }

  datatype WithdrawalOutcome = Ignored | Insufficient | Submitted(amount: real)

  /** The decision handleWithdrawal takes. */
  function Decide(selected: Option<string>, amount: real, details: string, balance: Option<real>)
    : (o: WithdrawalOutcome)
    ensures o == Ignored <==> selected.None? || selected.value == "" || amount == 0.0 || details == ""
    ensures o == Insufficient <==> o != Ignored && amount > BalanceOrZero(balance)
    ensures o.Submitted? ==> o.amount == amount && amount <= BalanceOrZero(balance)
  {
    if selected.None? || selected.value == "" || amount == 0.0 || details == "" then Ignored
    else if amount > BalanceOrZero(balance) then Insufficient
    else Submitted(amount)
  }

  /**
   * With the button enabled and a listed method selected, the withdrawal
   * goes through and leaves a non-negative balance at least the method's
   * minimum below the old one.
   */
  lemma EnabledWithdrawalIsSafe(amount: real, selected: Option<string>, details: string, balance: real)
    requires balance >= 0.0
    requires WithdrawEnabled(false, amount, CurrentMethod(selected), details, Some(balance))
    requires CurrentMethod(selected).Some?
    ensures Decide(selected, amount, details, Some(balance)) == Submitted(amount)
    ensures 0.0 <= balance - amount <= balance - CurrentMethod(selected).value.min
  {
    var m := CurrentMethod(selected).value;
    assert m in WithdrawalMethods;
    assert m.min > 0.0;
  }

  /** The handler alone does not refuse a negative amount: it would credit the balance. */
  lemma HandlerAcceptsNegativeAmount()
    ensures Decide(Some("bank"), -50.0, "IBAN", Some(0.0)) == Submitted(-50.0)
    ensures !WithdrawEnabled(false, -50.0, CurrentMethod(Some("bank")), "IBAN", Some(0.0))
  {
    assert CurrentMethod(Some("bank")) == Some(WithdrawalMethods[0]);
  }

  class WithdrawalsPage {
    var balance: Option<real>
    var selected: Option<string>
    var amount: real
    var details: string
    var processing: bool

    constructor (user: Option<real>)
      ensures balance == user && selected == None && amount == DefaultAmount && details == "" && !processing
    {
      balance := user;
      selected := None;
      amount := DefaultAmount;
      details := "";
      processing := false;
    }

    method SelectMethod(id: string)
      modifies this
      ensures selected == Some(id)
      ensures balance == old(balance) && amount == old(amount) && details == old(details)
      ensures processing == old(processing)
    {
      selected := Some(id);
    }

    method TypeDetails(text: string)
      modifies this
      ensures details == text
      ensures balance == old(balance) && amount == old(amount) && selected == old(selected)
      ensures processing == old(processing)
    {
      details := text;
    }

    method TypeAmount(parsed: Option<real>)
      modifies this
      ensures amount == TypedAmount(parsed, CurrentMethod(old(selected)))
      ensures balance == old(balance) && selected == old(selected) && details == old(details)
      ensures processing == old(processing)
    {
      amount := TypedAmount(parsed, CurrentMethod(selected));
    }

    method PickQuickAmount(k: nat)
      requires k < |QuickAmounts|
      modifies this
      ensures amount == QuickAmount(QuickAmounts[k], CurrentMethod(old(selected)), old(balance))
      ensures balance == old(balance) && selected == old(selected) && details == old(details)
      ensures processing == old(processing)
    {
      amount := QuickAmount(QuickAmounts[k], CurrentMethod(selected), balance);
    }

    /**
     * handleWithdrawal in Withdrawals.tsx, run to completion: debits a
     * signed-in user and resets the form once the request is submitted.
     */
    method Withdraw() returns (o: WithdrawalOutcome)
      modifies this
      ensures o == Decide(old(selected), old(amount), old(details), old(balance))
      ensures !o.Submitted? ==> unchanged(this)
      ensures o.Submitted? ==>
        && balance == (if old(balance).Some? then Some(old(balance).value - o.amount) else None)
        && amount == DefaultAmount && selected == None && details == "" && !processing
      ensures old(balance).Some? && old(balance).value >= 0.0 ==> balance.Some? && balance.value >= 0.0
    {
      o := Decide(selected, amount, details, balance);
      if !o.Submitted? {
        return;
      }
      processing := true;
      if balance.Some? {
        balance := Some(balance.value - amount);
      }
      processing := false;
      amount := DefaultAmount;
      selected := None;
      details := "";
    }
  }
}
