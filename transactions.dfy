/**
 * The transaction routes: an append-only in-memory log of deposits,
 * withdrawals, bonuses and referrals, with queries by email and by id and
 * in-place status changes of single records.
 */
module Transactions {
  import opened Wrappers
  import opened Strings
  import opened Seqs
  import opened Sorting

  const MinAmount: real := 0.01
  const DefaultLimit: int := 50

  /**
   * A log record. Clock fields hold the millisecond reading that the
   * stored ISO string renders; a field the handler did not set is `None`.
   * Created and deposit records carry `timestamp`, withdrawal requests
   * carry `requestedAt` instead.
   */
  datatype Tx = Tx(id: string, email: string, kind: string, amount: real,
                   paymentMethod: Option<string>, details: Option<string>, paymentId: Option<string>,
                   status: string, timestamp: Option<int>, requestedAt: Option<int>,
                   updatedAt: Option<int>, confirmedAt: Option<int>)

  /** The body createTransaction parses. */
  datatype TxRequest = TxRequest(email: string, kind: string, amount: real, paymentMethod: Option<string>)

  /** The reply of initializePayment. */
  datatype PaymentInit = PaymentInit(transactionId: string, paymentId: string, status: string, redirectUrl: string)

  /** The log after a handler ran, with the handler's reply. */
  datatype Outcome<T> = Outcome(log: seq<Tx>, response: Response<T>)

  predicate ValidKind(kind: string) {
    kind == "deposit" || kind == "withdrawal" || kind == "bonus" || kind == "referral"
  }

  /** The request schema: a valid email, one of the four kinds, an amount of at least 0.01. */
  predicate ValidRequest(req: TxRequest) {
    ValidEmail(req.email) && ValidKind(req.kind) && req.amount >= MinAmount
  }

  function TxId(now: nat): string { "tx-" + Decimal(now) }

  /** Record creation (transactions.ts createTransaction). */
  function Create(log: seq<Tx>, req: TxRequest, now: nat): (o: Outcome<Tx>)
    ensures !ValidRequest(req) ==> o == Outcome(log, Error(400, "Invalid request"))
    ensures ValidRequest(req) ==>
      && o.response.IsOk() && o.response.status == 201
      && o.log == log + [o.response.body]
      && o.response.body.status == "completed"
      && o.response.body.email == req.email && o.response.body.kind == req.kind
      && o.response.body.amount == req.amount && o.response.body.paymentMethod == req.paymentMethod
      && o.response.body.timestamp == Some(now)
  {
    if !ValidRequest(req) then Outcome(log, Error(400, "Invalid request"))
    else
      var tx := Tx(TxId(now), req.email, req.kind, req.amount, req.paymentMethod, None, None,
                   "completed", Some(now), None, None, None);
      Outcome(log + [tx], Reply(201, tx))
  }

  /** The key records are looked up by. */
  function IdOf(t: Tx): string { t.id }

  /** Lookup by id (transactions.ts getTransaction). */
  function GetTransaction(log: seq<Tx>, id: string): (r: Response<Tx>)
    ensures r.IsOk() <==> exists j :: 0 <= j < |log| && log[j].id == id
    ensures r.IsOk() ==> r.status == 200 && r.body.id == id && r.body in log
    ensures r.IsOk() ==>
      exists i :: 0 <= i < |log| && log[i] == r.body && forall j :: 0 <= j < i ==> log[j].id != id
    ensures !r.IsOk() ==> r == Error(404, "Transaction not found")
  {
    match FirstIndex(log, IdOf, id)
    case None => Error(404, "Transaction not found")
    case Some(i) => Reply(200, log[i])
  }

  /** `log` with record `i` replaced by `t`: same length, every other record unchanged. */
  predicate OnlyChanged(old_log: seq<Tx>, new_log: seq<Tx>, i: nat, t: Tx) {
    && |new_log| == |old_log| && i < |old_log|
    && new_log[i] == t
    && forall j :: 0 <= j < |old_log| && j != i ==> new_log[j] == old_log[j]
  }

  /** Status change (transactions.ts updateTransactionStatus); the status is not validated. */
  function UpdateStatus(log: seq<Tx>, id: string, status: string, now: nat): (o: Outcome<Tx>)
    ensures FirstIndex(log, IdOf, id).None? ==> o == Outcome(log, Error(404, "Transaction not found"))
    ensures FirstIndex(log, IdOf, id).Some? ==>
      var i := FirstIndex(log, IdOf, id).value;
      && OnlyChanged(log, o.log, i, log[i].(status := status, updatedAt := Some(now)))
      && o.response == Reply(200, o.log[i])
  {
    match FirstIndex(log, IdOf, id)
    case None => Outcome(log, Error(404, "Transaction not found"))
    case Some(i) =>
      var t := log[i].(status := status, updatedAt := Some(now));
      Outcome(log[i := t], Reply(200, t))
  }

  /** A pending deposit (transactions.ts initializePayment); the body is not validated. */
  function PendingDeposit(log: seq<Tx>, email: string, amount: real, paymentMethod: Option<string>, now: nat)
    : (o: Outcome<PaymentInit>)
    ensures |o.log| == |log| + 1 && o.log[..|log|] == log
    ensures var t := o.log[|log|];
      && t.kind == "deposit" && t.status == "pending" && t.email == email && t.amount == amount
      && t.paymentMethod == paymentMethod && t.details == None
      && t.timestamp == Some(now) && t.paymentId.Some?
      && o.response == Reply(201, PaymentInit(t.id, t.paymentId.value, "pending",
                                             "https://payment-gateway.com/checkout/" + t.paymentId.value))
  {
    var paymentId := "payment-" + Decimal(now);
    var tx := Tx(TxId(now), email, "deposit", amount, paymentMethod, None, Some(paymentId),
                 "pending", Some(now), None, None, None);
    Outcome(log + [tx], Reply(201, PaymentInit(tx.id, paymentId, "pending",
                                              "https://payment-gateway.com/checkout/" + paymentId)))
  }

  /** Payment confirmation (transactions.ts confirmPayment); `paymentId` is not checked. */
  function Confirm(log: seq<Tx>, transactionId: string, paymentId: string, now: nat): (o: Outcome<Tx>)
    ensures FirstIndex(log, IdOf, transactionId).None? ==> o == Outcome(log, Error(404, "Transaction not found"))
    ensures FirstIndex(log, IdOf, transactionId).Some? ==>
      var i := FirstIndex(log, IdOf, transactionId).value;
      && OnlyChanged(log, o.log, i, log[i].(status := "completed", confirmedAt := Some(now)))
      && o.response == Reply(200, o.log[i])
  {
    match FirstIndex(log, IdOf, transactionId)
    case None => Outcome(log, Error(404, "Transaction not found"))
    case Some(i) =>
      var t := log[i].(status := "completed", confirmedAt := Some(now));
      Outcome(log[i := t], Reply(200, t))
  }

  /** The confirmation does not depend on the payment id it is given. */
  lemma ConfirmIgnoresPaymentId(log: seq<Tx>, transactionId: string, p: string, q: string, now: nat)
    ensures Confirm(log, transactionId, p, now) == Confirm(log, transactionId, q, now)
  {
  }

  /** A pending withdrawal (transactions.ts requestWithdrawal), recorded without any balance check. */
  function PendingWithdrawal(log: seq<Tx>, email: string, amount: real, paymentMethod: Option<string>,
                             details: Option<string>, now: nat): (o: Outcome<Tx>)
    ensures o.response.IsOk() && o.response.status == 201
    ensures o.log == log + [o.response.body]
    ensures var t := o.response.body;
      && t.kind == "withdrawal" && t.status == "pending" && t.email == email && t.amount == amount
      && t.paymentMethod == paymentMethod && t.details == details
      && t.requestedAt == Some(now) && t.timestamp == None
  {
    var tx := Tx(TxId(now), email, "withdrawal", amount, paymentMethod, details, None,
                 "pending", None, Some(now), None, None);
    Outcome(log + [tx], Reply(201, tx))
  }

  /** `parseInt(limit) || 50`: an absent, unparseable or zero limit means 50. */
  function EffectiveLimit(limit: Option<int>): (n: int)
    ensures n != 0
    ensures limit.None? ==> n == DefaultLimit
    ensures limit.Some? ==> n == if limit.value == 0 then DefaultLimit else limit.value
  {
    if limit.None? || limit.value == 0 then DefaultLimit else limit.value
  }

  function ForEmail(log: seq<Tx>, email: string): seq<Tx> {
    Filter(log, (tx: Tx) => tx.email == email)
  }

  lemma ForEmailAll(log: seq<Tx>, email: string)
    requires forall i :: 0 <= i < |log| ==> log[i].email == email
    ensures ForEmail(log, email) == log
  {
    FilterAll(log, (tx: Tx) => tx.email == email);
  }

  /** The sort key as the query reads it: `new Date(tx.timestamp)`, absent for withdrawal requests. */
  function TimestampKey(tx: Tx): Option<real> {
    if tx.timestamp.Some? then Some(tx.timestamp.value as real) else None
  }

  /** The record's creation time: `timestamp`, or `requestedAt` for a withdrawal request. */
  function RecordedKey(tx: Tx): Option<real> {
    if tx.timestamp.Some? then Some(tx.timestamp.value as real)
    else if tx.requestedAt.Some? then Some(tx.requestedAt.value as real)
    else None
  }

  /** transactions.ts getTransactions as written: sorted on `timestamp` alone. */
  function GetTransactionsAsWritten(log: seq<Tx>, email: string, limit: Option<int>): (r: Response<seq<Tx>>)
    ensures email == "" <==> r == Error(400, "Email required")
    ensures r.IsOk() ==> r.body == SliceTo(SortDesc(ForEmail(log, email), TimestampKey), EffectiveLimit(limit))
  {
    if email == "" then Error(400, "Email required")
    else Reply(200, SliceTo(SortDesc(ForEmail(log, email), TimestampKey), EffectiveLimit(limit)))
  }

  /**
   * The query with the evidently intended order: one user's records, newest
   * first by creation time, at most `limit` of them.
   */
  function GetTransactions(log: seq<Tx>, email: string, limit: Option<int>): (r: Response<seq<Tx>>)
    ensures email == "" <==> r == Error(400, "Email required")
    ensures r.IsOk() ==> forall i :: 0 <= i < |r.body| ==> r.body[i].email == email && r.body[i] in log
    ensures r.IsOk() && EffectiveLimit(limit) > 0 ==>
      |r.body| == if EffectiveLimit(limit) < |ForEmail(log, email)| then EffectiveLimit(limit)
                  else |ForEmail(log, email)|
    ensures r.IsOk() && EffectiveLimit(limit) < 0 ==>
      |r.body| == if |ForEmail(log, email)| + EffectiveLimit(limit) > 0
                  then |ForEmail(log, email)| + EffectiveLimit(limit) else 0
    ensures r.IsOk() ==> r.body <= SortDesc(ForEmail(log, email), RecordedKey)
  {
    if email == "" then Error(400, "Email required")
    else
      var mine := ForEmail(log, email);
      var sorted := SortDesc(mine, RecordedKey);
      var r := SliceTo(sorted, EffectiveLimit(limit));
      forall i | 0 <= i < |r| ensures r[i].email == email && r[i] in log {
        assert r[i] == sorted[i];
        SortDescMembers(mine, RecordedKey, r[i]);
        FilterMembers(log, (tx: Tx) => tx.email == email, r[i]);
      }
      Reply(200, r)
  }

  /** Every record the handlers create carries a creation time. */
  predicate Timed(log: seq<Tx>) {
    forall i :: 0 <= i < |log| ==> log[i].timestamp.Some? || log[i].requestedAt.Some?
  }

  /** On a log of timed records the query returns the newest records first. */
  lemma GetTransactionsNewestFirst(log: seq<Tx>, email: string, limit: Option<int>)
    requires Timed(log) && email != ""
    ensures Descending(GetTransactions(log, email, limit).body, RecordedKey)
  {
    var mine := ForEmail(log, email);
    forall i | 0 <= i < |mine| ensures RecordedKey(mine[i]).Some? {
      FilterMembers(log, (tx: Tx) => tx.email == email, mine[i]);
    }
    SortDescOrdered(mine, RecordedKey);
  }

  /** Three records of one user: a deposit at time 1, a withdrawal request at time 2, a deposit at time 3. */
  const EarlyDeposit: Tx := Tx("tx-1", "a@b.co", "deposit", 10.0, None, None, None, "completed", Some(1), None, None, None)
  const LaterWithdrawal: Tx := Tx("tx-2", "a@b.co", "withdrawal", 5.0, None, None, None, "pending", None, Some(2), None, None)
  const LateDeposit: Tx := Tx("tx-3", "a@b.co", "deposit", 20.0, None, None, None, "completed", Some(3), None, None, None)

  lemma SortOnTimestampOnly()
    ensures SortDesc([EarlyDeposit, LaterWithdrawal, LateDeposit], TimestampKey)
            == [EarlyDeposit, LaterWithdrawal, LateDeposit]
  {
    var s := [EarlyDeposit, LaterWithdrawal, LateDeposit];
    assert s[1..] == [LaterWithdrawal, LateDeposit];
    assert s[1..][1..] == [LateDeposit];
    assert SortDesc([LateDeposit], TimestampKey) == [LateDeposit];
    assert !Before(TimestampKey, LateDeposit, LaterWithdrawal);
    assert SortDesc(s[1..], TimestampKey) == [LaterWithdrawal, LateDeposit];
    assert !Before(TimestampKey, LaterWithdrawal, EarlyDeposit);
  }

  lemma SortOnRecordedTime()
    ensures SortDesc([EarlyDeposit, LaterWithdrawal, LateDeposit], RecordedKey)
            == [LateDeposit, LaterWithdrawal, EarlyDeposit]
  {
    var s := [EarlyDeposit, LaterWithdrawal, LateDeposit];
    assert s[1..] == [LaterWithdrawal, LateDeposit];
    assert s[1..][1..] == [LateDeposit];
    assert SortDesc([LateDeposit], RecordedKey) == [LateDeposit];
    assert Before(RecordedKey, LateDeposit, LaterWithdrawal);
    assert Insert(LaterWithdrawal, [LateDeposit], RecordedKey) == [LateDeposit, LaterWithdrawal];
    assert SortDesc(s[1..], RecordedKey) == [LateDeposit, LaterWithdrawal];
    var t := [LateDeposit, LaterWithdrawal];
    assert Before(RecordedKey, LateDeposit, EarlyDeposit);
    assert t[1..] == [LaterWithdrawal];
    assert Before(RecordedKey, LaterWithdrawal, EarlyDeposit);
    assert Insert(EarlyDeposit, [LaterWithdrawal], RecordedKey) == [LaterWithdrawal, EarlyDeposit];
  }

  lemma QueryAsWrittenOnSample()
    ensures GetTransactionsAsWritten([EarlyDeposit, LaterWithdrawal, LateDeposit], "a@b.co", None).body
            == [EarlyDeposit, LaterWithdrawal, LateDeposit]
  {
    ForEmailAll([EarlyDeposit, LaterWithdrawal, LateDeposit], "a@b.co");
    SortOnTimestampOnly();
  }

  lemma QueryOnSample()
    ensures GetTransactions([EarlyDeposit, LaterWithdrawal, LateDeposit], "a@b.co", None).body
            == [LateDeposit, LaterWithdrawal, EarlyDeposit]
  {
    var s := [EarlyDeposit, LaterWithdrawal, LateDeposit];
    ForEmailAll(s, "a@b.co");
    assert ForEmail(s, "a@b.co") == s;
    SortOnRecordedTime();
    var sorted := [LateDeposit, LaterWithdrawal, EarlyDeposit];
    assert SortDesc(ForEmail(s, "a@b.co"), RecordedKey) == sorted;
    assert EffectiveLimit(None) == 50;
    assert SliceTo(sorted, 50) == sorted[..3] == sorted;
  }

  /**
   * With the query as written, a deposit at time 1, a withdrawal request at
   * time 2 and a deposit at time 3 come back oldest deposit first: every
   * comparison with the withdrawal (which has no `timestamp`) is NaN, read
   * as "equal", and the two deposits are never compared. Sorting on the
   * creation time returns them newest first.
   */
  lemma WithdrawalBreaksNewestFirst()
    ensures var r := GetTransactionsAsWritten([EarlyDeposit, LaterWithdrawal, LateDeposit], "a@b.co", None).body;
      r == [EarlyDeposit, LaterWithdrawal, LateDeposit] && !Descending(r, TimestampKey)
    ensures var r := GetTransactions([EarlyDeposit, LaterWithdrawal, LateDeposit], "a@b.co", None).body;
      r == [LateDeposit, LaterWithdrawal, EarlyDeposit] && Descending(r, RecordedKey)
  {
    QueryAsWrittenOnSample();
    QueryOnSample();
    GetTransactionsNewestFirst([EarlyDeposit, LaterWithdrawal, LateDeposit], "a@b.co", None);
    assert Before(TimestampKey, LateDeposit, EarlyDeposit);
  }

  /** The server's transaction log. Handlers only append records or change one in place. */
  class TransactionStore {
    var log: seq<Tx>

    ghost predicate Valid()
      reads this
    {
      Timed(log)
    }

    constructor ()
      ensures Valid() && log == []
    {
      log := [];
    }

    method CreateTransaction(req: TxRequest, now: nat) returns (r: Response<Tx>)
      requires Valid()
      modifies this
      ensures Valid()
      ensures log == Create(old(log), req, now).log && r == Create(old(log), req, now).response
      ensures old(log) <= log
    {
      var o := Create(log, req, now);
      log, r := o.log, o.response;
    }

    method UpdateTransactionStatus(id: string, status: string, now: nat) returns (r: Response<Tx>)
      requires Valid()
      modifies this
      ensures Valid()
      ensures log == UpdateStatus(old(log), id, status, now).log && r == UpdateStatus(old(log), id, status, now).response
      ensures |log| == |old(log)|
    {
      var o := UpdateStatus(log, id, status, now);
      log, r := o.log, o.response;
    }

    method InitializePayment(email: string, amount: real, paymentMethod: Option<string>, now: nat) returns (r: Response<PaymentInit>)
      requires Valid()
      modifies this
      ensures Valid()
      ensures log == PendingDeposit(old(log), email, amount, paymentMethod, now).log
      ensures r == PendingDeposit(old(log), email, amount, paymentMethod, now).response
      ensures old(log) <= log
    {
      var o := PendingDeposit(log, email, amount, paymentMethod, now);
      log, r := o.log, o.response;
    }

    method ConfirmPayment(transactionId: string, paymentId: string, now: nat) returns (r: Response<Tx>)
      requires Valid()
      modifies this
      ensures Valid()
      ensures log == Confirm(old(log), transactionId, paymentId, now).log
      ensures r == Confirm(old(log), transactionId, paymentId, now).response
      ensures |log| == |old(log)|
    {
      var o := Confirm(log, transactionId, paymentId, now);
      log, r := o.log, o.response;
    }

    method RequestWithdrawal(email: string, amount: real, paymentMethod: Option<string>, details: Option<string>, now: nat)
      returns (r: Response<Tx>)
      requires Valid()
      modifies this
      ensures Valid()
      ensures log == PendingWithdrawal(old(log), email, amount, paymentMethod, details, now).log
      ensures r == PendingWithdrawal(old(log), email, amount, paymentMethod, details, now).response
      ensures old(log) <= log
    {
      var o := PendingWithdrawal(log, email, amount, paymentMethod, details, now);
      log, r := o.log, o.response;
    }
  }
}
