/**
 * Withdrawals: the Withdrawal collection (server/models/Withdrawal.ts) and
 * the service that drives a withdrawal through it and the balance ledger
 * (server/services/withdrawalService.ts).
 *
 * The collection is a map from `reference` to its record (the unique index)
 * plus the references in creation order, which stands for the `createdAt`
 * sort of the history query. `status` is a string because the provider's
 * answer is written into it; the schema's enum is checked when a record is
 * saved. The provider's transfer and verification answers are inputs.
 */
module Withdrawals {
  import opened Common
  import opened Balances

  const Pending: string := "pending"
  const Processing: string := "processing"
  const Completed: string := "completed"
  const Failed: string := "failed"
  const Reverted: string := "reverted"

  /** The schema's enum on `status`. */
  predicate ValidStatus(s: string)
  {
    s == Pending || s == Processing || s == Completed || s == Failed || s == Reverted
  }

  datatype Withdrawal = Withdrawal(
    userId: string,
    amount: real,
    currency: string,
    accountName: string,
    accountNumber: string,
    bankCode: int,
    bankName: string,
    reference: string,
    status: string,
    chapaTransferId: Option<string>,
    errorMessage: Option<string>,
    processedAt: Option<int>,
    createdAt: int)

  /** What `save()` accepts: `min: 0`, the required strings and the status enum. */
  predicate Savable(w: Withdrawal)
  {
    && w.amount >= 0.0
    && w.userId != "" && w.currency != "" && w.accountName != ""
    && w.accountNumber != "" && w.bankName != "" && w.reference != ""
    && ValidStatus(w.status)
  }

  /** `updateStatus(status, chapaTransferId, errorMessage)` on a loaded record, before the save. */
  function ApplyStatus(w: Withdrawal, status: string, transferId: Option<string>, errorMessage: Option<string>, now: int): Withdrawal
  {
    w.(status := status,
       chapaTransferId := if Truthy(transferId) then transferId else w.chapaTransferId,
       errorMessage := if Truthy(errorMessage) then errorMessage else w.errorMessage,
       processedAt := if status == Completed || status == Failed then Some(now) else w.processedAt)
  }

  /** The collection's contents: records by reference, and the references in creation order. */
  datatype Book = Book(byRef: map<string, Withdrawal>, order: seq<string>)

  predicate BookValid(b: Book)
  {
    && (forall r :: r in b.byRef ==> b.byRef[r].reference == r && Savable(b.byRef[r]))
    && (forall i :: 0 <= i < |b.order| ==> b.order[i] in b.byRef)
    && (forall r :: r in b.byRef ==> r in b.order)
    && (forall i, j :: 0 <= i < j < |b.order| ==> b.order[i] != b.order[j])
  }

  /** The filter `{ userId }` of the history query. */
  function OwnedBy(userId: string): Withdrawal -> bool
  {
    (w: Withdrawal) => w.userId == userId
  }

  /** The key a record is stored under. */
  function ReferenceOf(w: Withdrawal): string
  {
    w.reference
  }

  /** Each record of `h` was created after every record that follows it. */
  predicate NewestFirstIn(order: seq<string>, h: seq<Withdrawal>)
  {
    forall i, j :: 0 <= i < j < |h| ==> LaterIn(order, h[i].reference, h[j].reference)
  }

  /** Filtering a newest-first list keeps it newest first. */
  lemma FilterKeepsNewestFirst(order: seq<string>, h: seq<Withdrawal>, keep: Withdrawal -> bool)
    requires NewestFirstIn(order, h)
    ensures NewestFirstIn(order, Filter(h, keep))
  {
    var f := Filter(h, keep);
    var idx := KeptPositions(h, keep);
    KeptPositionsHold(h, keep);
    KeptPositionsIncrease(h, keep);
    forall i, j | 0 <= i < j < |f|
      ensures LaterIn(order, f[i].reference, f[j].reference)
    {
      assert idx[i] < idx[j] && f[i] == h[idx[i]] && f[j] == h[idx[j]];
    }
  }

  /** `find({ userId }).sort({ createdAt: -1 }).limit(10)`. */
  function History(b: Book, userId: string): seq<Withdrawal>
    requires BookValid(b)
  {
    NewestView(b.byRef, b.order, OwnedBy(userId), 10)
  }

  /** The first save of a new record. */
  function Insert(b: Book, w: Withdrawal): (r: Book)
    requires BookValid(b) && w.reference !in b.byRef && Savable(w)
    ensures BookValid(r)
  {
    Book(b.byRef[w.reference := w], b.order + [w.reference])
  }

  /** A later save of a record already in the collection. */
  function Replace(b: Book, w: Withdrawal): (r: Book)
    requires BookValid(b) && w.reference in b.byRef && Savable(w)
    ensures BookValid(r)
  {
    Book(b.byRef[w.reference := w], b.order)
  }

  /** The fields of `WithdrawalRequest`; `userId` may be absent. */
  datatype Request = Request(
    amount: real,
    accountName: string,
    accountNumber: string,
    bankCode: int,
    bankName: string,
    userId: Option<string>)

  /** What the provider's transfer endpoint answered: `status` and `data.id`. */
  datatype TransferResponse = TransferResponse(status: Option<string>, transferId: Option<string>)

  /** What the provider's verification endpoint answered: `data.status`. */
  datatype VerifyResponse = VerifyResponse(status: Option<string>)

  const InsufficientBalance: string := "Insufficient balance"
  const TransferInitiationFailed: string := "Transfer initiation failed"
  /** The errors raised by a refused save and by a failed provider request. */
  const ValidationFailed: string := "Withdrawal validation failed"
  const DuplicateReference: string := "E11000 duplicate key error: reference"
  const ProviderUnreachable: string := "Request to the transfer provider failed"

  /** The destructuring default of `initiateWithdrawal`: an absent `userId` is `default-user`. */
  function RequestUser(req: Request): string
  {
    if req.userId.Some? then req.userId.value else DefaultUser
  }

  /** `withdrawal-<userId>-<Date.now()>`. */
  function ReferenceFor(userId: string, now: int): string
  {
    "withdrawal-" + userId + "-" + IntToString(now)
  }

  /** The record `initiateWithdrawal` saves before calling the provider. */
  function PendingRecord(req: Request, now: int): Withdrawal
  {
    var userId := RequestUser(req);
    Withdrawal(userId, req.amount, Etb, req.accountName, req.accountNumber, req.bankCode, req.bankName,
               ReferenceFor(userId, now), Pending, None, None, None, now)
  }

  /** `WithdrawalService.checkBalance`: a missing record counts as 0, and a store error as false. */
  function HasSufficientBalance(l: Ledger, userId: string, amount: real, storeFails: bool): bool
  {
    !storeFails && AmountOf(l, userId) >= amount
  }

  /** The balance deduction after a successful transfer: `(findOne || new Balance)`, subtract, save. */
  function Deduct(l: Ledger, userId: string, amount: real, now: int): (r: Ledger)
    requires LedgerValid(l) && userId != "" && AmountOf(l, userId) >= amount
    ensures LedgerValid(r)
  {
    var b := if userId in l then l[userId] else NewBalance(userId, now);
    l[userId := b.(balance := b.balance - amount, lastUpdated := now)]
  }

  /** The deduction writes the record read (or the new one) with the amount subtracted. */
  lemma DeductWrites(l: Ledger, userId: string, amount: real, now: int, current: Balance)
    requires LedgerValid(l) && userId != "" && AmountOf(l, userId) >= amount
    requires current == var b := if userId in l then l[userId] else NewBalance(userId, now);
                        b.(balance := b.balance - amount, lastUpdated := now)
    ensures Deduct(l, userId, amount, now) == l[userId := current]
  {
  }

  /** The ledger, the collection and the answer after `initiateWithdrawal`. */
  datatype Outcome = Outcome(ledger: Ledger, book: Book, result: Result<Withdrawal>)

  /**
   * `initiateWithdrawal`: balance check, pending record, then the provider
   * call. `transfer` is the provider's answer (`None`: the request threw).
   */
  function Initiate(l: Ledger, b: Book, req: Request, now: int, balanceReadFails: bool,
                    transfer: Option<TransferResponse>): (r: Outcome)
    requires LedgerValid(l) && BookValid(b)
    ensures LedgerValid(r.ledger) && BookValid(r.book)
  {
    var userId := RequestUser(req);
    if !HasSufficientBalance(l, userId, req.amount, balanceReadFails) then Outcome(l, b, Err(InsufficientBalance))
    else
      var w := PendingRecord(req, now);
      if !Savable(w) then Outcome(l, b, Err(ValidationFailed))
      else if w.reference in b.byRef then Outcome(l, b, Err(DuplicateReference))
      else Settle(l, Insert(b, w), w, now, transfer)
  }

  /**
   * The part of `initiateWithdrawal` after the pending record `w` is saved:
   * on "success" the record becomes `processing` and the balance is
   * deducted; on any other status it becomes `failed` and nothing is deducted.
   */
  function Settle(l: Ledger, b1: Book, w: Withdrawal, now: int, transfer: Option<TransferResponse>): (r: Outcome)
    requires LedgerValid(l) && BookValid(b1) && w.reference in b1.byRef && b1.byRef[w.reference] == w
    requires w.status == Pending && AmountOf(l, w.userId) >= w.amount
    ensures LedgerValid(r.ledger) && BookValid(r.book)
  {
    if transfer.None? then Outcome(l, b1, Err(ProviderUnreachable))
    else if transfer.value.status == Some("success") then
      var w2 := ApplyStatus(w, Processing, transfer.value.transferId, None, now);
      Outcome(Deduct(l, w.userId, w.amount, now), Replace(b1, w2), Ok(w2))
    else
      var w2 := ApplyStatus(w, Failed, None, Some(TransferInitiationFailed), now);
      Outcome(l, Replace(b1, w2), Err(TransferInitiationFailed))
  }

  /** The deduction lowers exactly the one balance by exactly the amount. */
  lemma DeductContract(l: Ledger, userId: string, amount: real, now: int)
    requires LedgerValid(l) && userId != "" && AmountOf(l, userId) >= amount
    ensures var l' := Deduct(l, userId, amount, now);
      && AmountOf(l', userId) == AmountOf(l, userId) - amount
      && AmountOf(l', userId) >= 0.0
      && (forall v :: v != userId ==> (v in l' <==> v in l) && (v in l ==> l'[v] == l[v]))
  {
  }

  /**
   * `verifyWithdrawal`: `provider` is the verification answer (`Err`: the
   * request threw). A matching record gets the answered status, or `pending`
   * when there is none; a status outside the enum makes the save throw.
   */
  function Verify(b: Book, reference: string, provider: Result<VerifyResponse>, now: int): (r: (Book, Result<VerifyResponse>))
    requires BookValid(b)
    ensures BookValid(r.0)
  {
    if provider.Err? then (b, Err(provider.message))
    else if reference !in b.byRef then (b, provider)
    else
      var status := if Truthy(provider.value.status) then provider.value.status.value else Pending;
      var w := ApplyStatus(b.byRef[reference], status, None, None, now);
      if Savable(w) then (Replace(b, w), provider) else (b, Err(ValidationFailed))
  }

  /**
   * `updateStatus` sets exactly the given status, overwrites the transfer id
   * and the error message only with non-empty values, and sets `processedAt`
   * exactly for completed and failed; repeating it changes nothing more.
   */
  lemma ApplyStatusContract(w: Withdrawal, status: string, transferId: Option<string>, errorMessage: Option<string>, now: int)
    ensures var w' := ApplyStatus(w, status, transferId, errorMessage, now);
      && w'.status == status
      && w'.chapaTransferId == (if Truthy(transferId) then transferId else w.chapaTransferId)
      && w'.errorMessage == (if Truthy(errorMessage) then errorMessage else w.errorMessage)
      && (status == Completed || status == Failed ==> w'.processedAt == Some(now))
      && (status != Completed && status != Failed ==> w'.processedAt == w.processedAt)
      && w'.(status := w.status, chapaTransferId := w.chapaTransferId, errorMessage := w.errorMessage,
             processedAt := w.processedAt) == w
      && ApplyStatus(w', status, transferId, errorMessage, now) == w'
  {
  }

  /** Every stored record has a status from the enum and a non-negative amount; references are unique. */
  lemma StoredRecordsWellFormed(b: Book, r: string)
    requires BookValid(b) && r in b.byRef
    ensures ValidStatus(b.byRef[r].status) && b.byRef[r].amount >= 0.0 && b.byRef[r].reference == r
  {
  }

  /** A new record starts pending, in ETB, with the reference `withdrawal-<userId>-<now>`. */
  lemma PendingRecordDefaults(req: Request, now: int)
    ensures var w := PendingRecord(req, now);
      && w.status == Pending && w.currency == Etb
      && w.userId == (if req.userId.Some? then req.userId.value else "default-user")
      && w.reference == "withdrawal-" + w.userId + "-" + IntToString(now)
      && w.chapaTransferId.None? && w.processedAt.None?
  {
  }

  /** Two withdrawals of one user created at different instants get different references. */
  lemma ReferencesDiffer(userId: string, t1: int, t2: int)
    requires t1 != t2
    ensures ReferenceFor(userId, t1) != ReferenceFor(userId, t2)
  {
    var p := "withdrawal-" + userId + "-";
    if ReferenceFor(userId, t1) == ReferenceFor(userId, t2) {
      assert IntToString(t1) == ReferenceFor(userId, t1)[|p|..] == ReferenceFor(userId, t2)[|p|..] == IntToString(t2);
      IntToStringInjective(t1, t2);
    }
  }

  /** An insufficient balance rejects before any record is written and before any deduction. */
  lemma InitiateRejectsWhenShort(l: Ledger, b: Book, req: Request, now: int, readFails: bool, transfer: Option<TransferResponse>)
    requires LedgerValid(l) && BookValid(b)
    requires readFails || AmountOf(l, RequestUser(req)) < req.amount
    ensures Initiate(l, b, req, now, readFails, transfer) == Outcome(l, b, Err(InsufficientBalance))
  {
  }

  /**
   * A successful transfer leaves the new record `processing` with the
   * provider's transfer id, and lowers the requester's balance by exactly
   * the amount, which keeps it non-negative; no other balance changes.
   */
  lemma InitiateSuccessDeducts(l: Ledger, b: Book, req: Request, now: int, t: TransferResponse)
    requires LedgerValid(l) && BookValid(b)
    ensures var o := Initiate(l, b, req, now, false, Some(t));
      var u := RequestUser(req);
      o.result.Ok? ==>
        && t.status == Some("success")
        && o.result.value.status == Processing
        && o.result.value.chapaTransferId == (if Truthy(t.transferId) then t.transferId else None)
        && o.result.value.reference == ReferenceFor(u, now)
        && o.book.byRef == b.byRef[o.result.value.reference := o.result.value]
        && o.book.order == b.order + [o.result.value.reference]
        && AmountOf(o.ledger, u) == AmountOf(l, u) - req.amount
        && AmountOf(o.ledger, u) >= 0.0
        && (forall v :: v != u ==> (v in o.ledger <==> v in l) && (v in l ==> o.ledger[v] == l[v]))
  {
    var u := RequestUser(req);
    var w := PendingRecord(req, now);
    var o := Initiate(l, b, req, now, false, Some(t));
    if o.result.Ok? {
      assert HasSufficientBalance(l, u, req.amount, false) && Savable(w) && w.reference !in b.byRef;
      var b1 := Insert(b, w);
      assert o == Settle(l, b1, w, now, Some(t));
      assert t.status == Some("success");
      var w2 := ApplyStatus(w, Processing, t.transferId, None, now);
      assert o == Outcome(Deduct(l, u, req.amount, now), Replace(b1, w2), Ok(w2));
      UpdateTwice(b.byRef, w.reference, w, w2);
      DeductContract(l, u, req.amount, now);
    }
  }

  /**
   * With enough balance, a savable record under a fresh reference and a
   * "success" answer, the withdrawal goes through: the result is the
   * processing record, and the balance is lowered by the amount.
   */
  lemma InitiateSuccessSucceeds(l: Ledger, b: Book, req: Request, now: int, t: TransferResponse)
    requires LedgerValid(l) && BookValid(b)
    requires HasSufficientBalance(l, RequestUser(req), req.amount, false)
    requires Savable(PendingRecord(req, now)) && ReferenceFor(RequestUser(req), now) !in b.byRef
    requires t.status == Some("success")
    ensures var o := Initiate(l, b, req, now, false, Some(t));
      var u := RequestUser(req);
      && o.result.Ok?
      && o.result.value == ApplyStatus(PendingRecord(req, now), Processing, t.transferId, None, now)
      && o.result.value.status == Processing
      && o.book.order == b.order + [ReferenceFor(u, now)]
      && AmountOf(o.ledger, u) == AmountOf(l, u) - req.amount
  {
    InitiateSuccessDeducts(l, b, req, now, t);
  }

  /** Any provider status other than "success" marks the record failed and touches no balance. */
  lemma InitiateFailureNoDeduction(l: Ledger, b: Book, req: Request, now: int, t: TransferResponse)
    requires LedgerValid(l) && BookValid(b)
    requires HasSufficientBalance(l, RequestUser(req), req.amount, false)
    requires Savable(PendingRecord(req, now)) && ReferenceFor(RequestUser(req), now) !in b.byRef
    requires t.status != Some("success")
    ensures var o := Initiate(l, b, req, now, false, Some(t));
      var w := o.book.byRef[ReferenceFor(RequestUser(req), now)];
      && o.result == Err(TransferInitiationFailed)
      && o.ledger == l
      && ReferenceFor(RequestUser(req), now) in o.book.byRef
      && w.status == Failed && w.errorMessage == Some(TransferInitiationFailed) && w.processedAt == Some(now)
  {
  }

  /** A provider request that throws leaves the saved record pending and the ledger untouched. */
  lemma InitiateProviderErrorLeavesPending(l: Ledger, b: Book, req: Request, now: int)
    requires LedgerValid(l) && BookValid(b)
    requires HasSufficientBalance(l, RequestUser(req), req.amount, false)
    requires Savable(PendingRecord(req, now)) && ReferenceFor(RequestUser(req), now) !in b.byRef
    ensures var o := Initiate(l, b, req, now, false, None);
      && o.result.Err? && o.ledger == l
      && o.book.byRef == b.byRef[ReferenceFor(RequestUser(req), now) := PendingRecord(req, now)]
  {
  }

  /**
   * `verifyWithdrawal` changes nothing for an unknown reference or a failed
   * request; otherwise the record's status becomes the answered status, or
   * pending when the answer carries none.
   */
  lemma VerifyContract(b: Book, reference: string, provider: Result<VerifyResponse>, now: int)
    requires BookValid(b)
    ensures var (b', r) := Verify(b, reference, provider, now);
      && (provider.Err? || reference !in b.byRef ==> b' == b)
      && (provider.Ok? && reference !in b.byRef ==> r == provider)
      && (r.Ok? && reference in b.byRef ==>
            && b'.byRef[reference].status == (if Truthy(provider.value.status) then provider.value.status.value else Pending)
            && b'.order == b.order
            && (forall o :: o in b.byRef && o != reference ==> b'.byRef[o] == b.byRef[o]))
      && ((provider.Ok? && reference in b.byRef && Truthy(provider.value.status)
           && !ValidStatus(provider.value.status.value)) ==> b' == b && r.Err?)
  {
  }

  /**
   * The history holds only the user's withdrawals, at most 10, newest first;
   * it holds every withdrawal of the user newer than any of its entries, and
   * all of them when it holds fewer than 10.
   */
  lemma {:induction false} HistoryContract(b: Book, userId: string)
    requires BookValid(b)
    ensures var h := History(b, userId);
      && |h| <= 10
      && (forall w :: w in h ==> w.userId == userId && w.reference in b.byRef && b.byRef[w.reference] == w)
      && NewestFirstIn(b.order, h)
      && (forall k, r ::
            0 <= k < |h| && r in b.byRef && b.byRef[r].userId == userId && LaterIn(b.order, r, h[k].reference)
            ==> b.byRef[r] in h)
      && (|h| < 10 ==> forall r :: r in b.byRef && b.byRef[r].userId == userId ==> b.byRef[r] in h)
      && (b.order == [] ==> h == [])
  {
    HistoryStored(b, userId);
    HistoryOrder(b, userId);
    HistoryComplete(b, userId);
  }

  /** Every key of a valid collection holds the record with that reference. */
  lemma KeysIdentify(b: Book)
    requires BookValid(b)
    ensures forall i :: 0 <= i < |b.order| ==> b.order[i] in b.byRef && ReferenceOf(b.byRef[b.order[i]]) == b.order[i]
  {
  }

  /** The history holds at most 10 of the user's stored records. */
  lemma {:induction false} HistoryStored(b: Book, userId: string)
    requires BookValid(b)
    ensures var h := History(b, userId);
      && |h| <= 10
      && (forall w :: w in h ==> w.userId == userId && w.reference in b.byRef && b.byRef[w.reference] == w)
      && (b.order == [] ==> h == [])
  {
    var h := History(b, userId);
    forall w | w in h
      ensures w.userId == userId && w.reference in b.byRef && b.byRef[w.reference] == w
    {
      ViewedIsStored(b.byRef, b.order, OwnedBy(userId), 10, w);
      var j :| 0 <= j < |b.order| && b.byRef[b.order[j]] == w;
    }
  }

  /** The history runs from the newest record to the oldest. */
  lemma {:induction false} HistoryOrder(b: Book, userId: string)
    requires BookValid(b)
    ensures NewestFirstIn(b.order, History(b, userId))
  {
    KeysIdentify(b);
    NewestViewOrder(b.byRef, b.order, ReferenceOf, OwnedBy(userId), 10);
  }

  /** The history is the user's newest records: none newer than a listed one is missing. */
  lemma {:induction false} HistoryComplete(b: Book, userId: string)
    requires BookValid(b)
    ensures var h := History(b, userId);
      && (forall k, r ::
            0 <= k < |h| && r in b.byRef && b.byRef[r].userId == userId && LaterIn(b.order, r, h[k].reference)
            ==> b.byRef[r] in h)
      && (|h| < 10 ==> forall r :: r in b.byRef && b.byRef[r].userId == userId ==> b.byRef[r] in h)
  {
    var h := History(b, userId);
    KeysIdentify(b);
    NewestViewComplete(b.byRef, b.order, ReferenceOf, OwnedBy(userId), 10);
    if |h| < 10 {
      NewestViewUncut(b.byRef, b.order, OwnedBy(userId), 10);
      forall r | r in b.byRef && b.byRef[r].userId == userId
        ensures b.byRef[r] in h
      {
        var p :| 0 <= p < |b.order| && b.order[p] == r;
      }
    }
  }

  /** A withdrawal just created comes first in its owner's history. */
  lemma NewRecordHeadsHistory(b: Book, w: Withdrawal)
    requires BookValid(b) && w.reference !in b.byRef && Savable(w)
    ensures History(Insert(b, w), w.userId) != [] && History(Insert(b, w), w.userId)[0] == w
  {
    LookupAppend(b.byRef, b.order, w.reference, w);
    NewestKeptFirst(Lookup(b.byRef, b.order), w, OwnedBy(w.userId), 10);
  }

  /**
   * The Withdrawal collection with the service operations over it. The
   * fields are the collection's contents; `Contents()` is their value.
   */
  class WithdrawalStore {
    var byRef: map<string, Withdrawal>
    var order: seq<string>

    function Contents(): Book
      reads this
    {
      Book(byRef, order)
    }

    ghost predicate Valid()
      reads this
    {
      BookValid(Contents())
    }

    constructor ()
      ensures Valid() && byRef == map[] && order == []
    {
      byRef := map[];
      order := [];
    }

    /** `updateStatus` on the stored record of `reference`, then its save. */
    method UpdateStatus(reference: string, status: string, transferId: Option<string>, errorMessage: Option<string>, now: int)
      returns (res: Result<Withdrawal>)
      requires Valid() && reference in byRef
      modifies this
      ensures Valid()
      ensures var w := ApplyStatus(old(byRef)[reference], status, transferId, errorMessage, now);
        && (Savable(w) ==> res == Ok(w) && Contents() == Replace(old(Contents()), w))
        && (!Savable(w) ==> res == Err(ValidationFailed) && Contents() == old(Contents()))
    {
      var w := byRef[reference];
      w := w.(status := status);
      if Truthy(transferId) {
        w := w.(chapaTransferId := transferId);
      }
      if Truthy(errorMessage) {
        w := w.(errorMessage := errorMessage);
      }
      if status == Completed || status == Failed {
        w := w.(processedAt := Some(now));
      }
      if !Savable(w) {
        return Err(ValidationFailed);
      }
      byRef := byRef[reference := w];
      res := Ok(w);
    }

    /** `WithdrawalService.checkBalance`: reads the ledger and writes nothing. */
    method CheckBalance(balances: BalanceStore, userId: string, amount: real, storeFails: bool) returns (ok: bool)
      requires balances.Valid()
      ensures ok == HasSufficientBalance(balances.records, userId, amount, storeFails)
    {
      if storeFails {
        return false;
      }
      var current := if userId in balances.records then balances.records[userId] else NewBalance(userId, 0);
      ok := current.balance >= amount;
    }

    /** `WithdrawalService.initiateWithdrawal`, step by step over the two collections. */
    method InitiateWithdrawal(balances: BalanceStore, req: Request, now: int, balanceReadFails: bool,
                              transfer: Option<TransferResponse>) returns (res: Result<Withdrawal>)
      requires Valid() && balances.Valid()
      modifies this, balances
      ensures Valid() && balances.Valid()
      ensures Outcome(balances.records, Contents(), res)
              == Initiate(old(balances.records), old(Contents()), req, now, balanceReadFails, transfer)
    {
      var userId := RequestUser(req);
      var ok := CheckBalance(balances, userId, req.amount, balanceReadFails);
      if !ok {
        return Err(InsufficientBalance);
      }
      var w := PendingRecord(req, now);
      if !Savable(w) {
        return Err(ValidationFailed);
      }
      if w.reference in byRef {
        return Err(DuplicateReference);
      }
      byRef := byRef[w.reference := w];
      order := order + [w.reference];
      res := SettleTransfer(balances, w, now, transfer);
    }

    /** The provider call's consequences for the saved pending record `w`. */
    method SettleTransfer(balances: BalanceStore, w: Withdrawal, now: int, transfer: Option<TransferResponse>)
      returns (res: Result<Withdrawal>)
      requires Valid() && balances.Valid() && w.reference in byRef && byRef[w.reference] == w
      requires w.status == Pending && AmountOf(balances.records, w.userId) >= w.amount
      modifies this, balances
      ensures Valid() && balances.Valid()
      ensures Outcome(balances.records, Contents(), res) == Settle(old(balances.records), old(Contents()), w, now, transfer)
    {
      if transfer.None? {
        return Err(ProviderUnreachable);
      }
      if transfer.value.status == Some("success") {
        ghost var w2 := ApplyStatus(w, Processing, transfer.value.transferId, None, now);
        assert Savable(w2);
        res := UpdateStatus(w.reference, Processing, transfer.value.transferId, None, now);
        assert res == Ok(w2) && Contents() == Replace(old(Contents()), w2);
        ghost var before := balances.records;
        var current := if w.userId in balances.records then balances.records[w.userId] else NewBalance(w.userId, now);
        current := current.(balance := current.balance - w.amount, lastUpdated := now);
        DeductWrites(before, w.userId, w.amount, now, current);
        balances.records := balances.records[w.userId := current];
      } else {
        ghost var w2 := ApplyStatus(w, Failed, None, Some(TransferInitiationFailed), now);
        assert Savable(w2);
        var _ := UpdateStatus(w.reference, Failed, None, Some(TransferInitiationFailed), now);
        res := Err(TransferInitiationFailed);
      }
    }

    /** `WithdrawalService.verifyWithdrawal`. */
    method VerifyWithdrawal(reference: string, provider: Result<VerifyResponse>, now: int) returns (res: Result<VerifyResponse>)
      requires Valid()
      modifies this
      ensures Valid()
      ensures (Contents(), res) == Verify(old(Contents()), reference, provider, now)
    {
      if provider.Err? {
        return Err(provider.message);
      }
      if reference in byRef {
        var status := if Truthy(provider.value.status) then provider.value.status.value else Pending;
        var updated := UpdateStatus(reference, status, None, None, now);
        if updated.Err? {
          return Err(ValidationFailed);
        }
      }
      res := provider;
    }

    /** `WithdrawalService.getWithdrawalHistory`: an error yields an empty list. */
    method GetWithdrawalHistory(userId: string, storeFails: bool) returns (h: seq<Withdrawal>)
      requires Valid()
      ensures storeFails ==> h == []
      ensures !storeFails ==> h == History(Contents(), userId)
      ensures |h| <= 10 && forall w :: w in h ==> w.userId == userId && w.reference in byRef && byRef[w.reference] == w
      ensures NewestFirstIn(order, h)
      ensures !storeFails && |h| < 10 ==> forall r :: r in byRef && byRef[r].userId == userId ==> byRef[r] in h
    {
      if storeFails {
        return [];
      }
      HistoryContract(Contents(), userId);
      h := History(Contents(), userId);
    }

    /** `WithdrawalService.getWithdrawalByReference`. */
    method GetWithdrawalByReference(reference: string) returns (w: Option<Withdrawal>)
      requires Valid()
      ensures w.None? <==> reference !in byRef
      ensures w.Some? ==> w.value == byRef[reference] && w.value.reference == reference
    {
      w := if reference in byRef then Some(byRef[reference]) else None;
    }
  }
}
