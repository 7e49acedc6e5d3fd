/**
 * Payment records: the Payment collection (server/models/Payment.ts).
 *
 * The collection is a map from `tx_ref` to its record (the unique index)
 * plus the references in creation order, which stands for the `createdAt`
 * sort of `getUserPayments`. `status` is a string checked against the
 * schema's enum when a record is saved.
 */
module Payments {
  import opened Common

  const PaymentPending: string := "pending"
  const PaymentSuccess: string := "success"
  const PaymentFailed: string := "failed"
  const PaymentCancelled: string := "cancelled"

  /** The schema's enum on `status`. */
  predicate ValidPaymentStatus(s: string)
  {
    s == PaymentPending || s == PaymentSuccess || s == PaymentFailed || s == PaymentCancelled
  }

  datatype Metadata = Metadata(phoneNumber: Option<string>, email: Option<string>, firstName: Option<string>, lastName: Option<string>)

  datatype Payment = Payment(
    userId: int,
    txRef: string,
    amount: real,
    currency: string,
    status: string,
    paymentMethod: Option<string>,
    chapaReference: Option<string>,
    metadata: Metadata,
    processedAt: Option<int>,
    createdAt: int)

  /** The argument of the static `createPayment`. */
  datatype PaymentInput = PaymentInput(userId: int, txRef: string, amount: real, currency: Option<string>, metadata: Metadata)

  /** What `save()` accepts: the required `tx_ref` and the status enum. */
  predicate Savable(p: Payment)
  {
    p.txRef != "" && ValidPaymentStatus(p.status)
  }

  /** `new Payment(paymentData)`: the input plus the schema defaults. */
  function NewPayment(input: PaymentInput, now: int): Payment
  {
    Payment(input.userId, input.txRef, input.amount,
            if input.currency.Some? then input.currency.value else Etb,
            PaymentPending, None, None, input.metadata, None, now)
  }

  /** `markSuccess(chapaReference)`, before the save: the argument is stored even when absent. */
  function MarkSuccess(p: Payment, chapaReference: Option<string>, now: int): Payment
  {
    p.(status := PaymentSuccess, chapaReference := chapaReference, processedAt := Some(now))
  }

  /** `markFailed()`, before the save. */
  function MarkFailed(p: Payment, now: int): Payment
  {
    p.(status := PaymentFailed, processedAt := Some(now))
  }

  datatype PaymentBook = PaymentBook(byTxRef: map<string, Payment>, order: seq<string>)

  predicate BookValid(b: PaymentBook)
  {
    && (forall t :: t in b.byTxRef ==> b.byTxRef[t].txRef == t && Savable(b.byTxRef[t]))
    && (forall i :: 0 <= i < |b.order| ==> b.order[i] in b.byTxRef)
    && (forall t :: t in b.byTxRef ==> t in b.order)
    && (forall i, j :: 0 <= i < j < |b.order| ==> b.order[i] != b.order[j])
  }

  /** The filter `{ userId }` of `getUserPayments`. */
  function PaidBy(userId: int): Payment -> bool
  {
    (p: Payment) => p.userId == userId
  }

  /** The key a payment is stored under. */
  function TxRefOf(p: Payment): string
  {
    p.txRef
  }

  /** The default `limit` of `getUserPayments`, used when the argument is omitted. */
  const DefaultLimit: nat := 10

  /** The number of records `limit(limit)` lets through: 0 means no limit. */
  function Cap(b: PaymentBook, limit: nat): nat
  {
    if limit == 0 then |b.order| else limit
  }

  /**
   * `getUserPayments(userId, limit)`: `find({ userId }).sort({ createdAt: -1 }).limit(limit)`;
   * an omitted `limit` is `DefaultLimit`.
   */
  function UserPayments(b: PaymentBook, userId: int, limit: Option<nat>): seq<Payment>
    requires BookValid(b)
  {
    NewestView(b.byTxRef, b.order, PaidBy(userId), Cap(b, if limit.Some? then limit.value else DefaultLimit))
  }

  /** A new payment is pending, in ETB unless the input names a currency. */
  lemma NewPaymentDefaults(input: PaymentInput, now: int)
    ensures var p := NewPayment(input, now);
      && p.status == PaymentPending && ValidPaymentStatus(p.status)
      && (input.currency.None? ==> p.currency == "ETB")
      && p.chapaReference.None? && p.processedAt.None?
  {
  }

  /**
   * `markSuccess` sets the status, stores the argument as the provider
   * reference even when it is absent, stamps `processedAt`, and changes
   * nothing else; `markFailed` keeps the provider reference.
   */
  lemma MarkContracts(p: Payment, chapaReference: Option<string>, now: int)
    ensures var s := MarkSuccess(p, chapaReference, now);
      && s.status == PaymentSuccess && s.chapaReference == chapaReference && s.processedAt == Some(now)
      && s.(status := p.status, chapaReference := p.chapaReference, processedAt := p.processedAt) == p
    ensures var f := MarkFailed(p, now);
      && f.status == PaymentFailed && f.chapaReference == p.chapaReference && f.processedAt == Some(now)
      && f.(status := p.status, processedAt := p.processedAt) == p
    ensures Savable(p) ==> Savable(MarkSuccess(p, chapaReference, now)) && Savable(MarkFailed(p, now))
  {
  }

  /** Neither mark inspects the current status: a failed payment can be marked successful and back. */
  lemma TerminalPaymentsCanBeRemarked(p: Payment, chapaReference: Option<string>, t1: int, t2: int)
    ensures MarkSuccess(MarkFailed(p, t1), chapaReference, t2).status == PaymentSuccess
    ensures MarkFailed(MarkSuccess(p, chapaReference, t1), t2).status == PaymentFailed
    ensures MarkFailed(MarkSuccess(p, chapaReference, t1), t2).chapaReference == chapaReference
  {
  }

  /** `tx_ref` is unique: any stored payment with that reference is the one `findByTxRef` returns. */
  lemma TxRefIdentifiesPayment(b: PaymentBook, p: Payment, q: Payment)
    requires BookValid(b) && p in b.byTxRef.Values && q in b.byTxRef.Values && p.txRef == q.txRef
    ensures p == q && p.txRef in b.byTxRef && b.byTxRef[p.txRef] == p
  {
    var tp :| tp in b.byTxRef && b.byTxRef[tp] == p;
    var tq :| tq in b.byTxRef && b.byTxRef[tq] == q;
    assert tp == p.txRef && tq == q.txRef;
  }

  /**
   * `getUserPayments` returns only that user's stored payments, at most
   * `limit` of them (10 when omitted, any number for 0), newest first.
   */
  lemma {:induction false} UserPaymentsContract(b: PaymentBook, userId: int, limit: Option<nat>)
    requires BookValid(b)
    ensures var ps := UserPayments(b, userId, limit);
      var n := if limit.Some? then limit.value else DefaultLimit;
      && (n > 0 ==> |ps| <= n)
      && (forall p :: p in ps ==> p.userId == userId && p.txRef in b.byTxRef && b.byTxRef[p.txRef] == p)
      && (forall i, j :: 0 <= i < j < |ps| ==> LaterIn(b.order, ps[i].txRef, ps[j].txRef))
  {
    var cap := Cap(b, if limit.Some? then limit.value else DefaultLimit);
    var ps := UserPayments(b, userId, limit);
    forall p | p in ps
      ensures p.userId == userId && p.txRef in b.byTxRef && b.byTxRef[p.txRef] == p
    {
      ViewedIsStored(b.byTxRef, b.order, PaidBy(userId), cap, p);
      var j :| 0 <= j < |b.order| && b.byTxRef[b.order[j]] == p;
    }
    NewestViewOrder(b.byTxRef, b.order, TxRefOf, PaidBy(userId), cap);
  }

  /**
   * Nothing of the user's is skipped: every payment of the user newer than
   * one returned is returned too, and all of them are when the limit is 0
   * or not reached.
   */
  lemma {:induction false} UserPaymentsComplete(b: PaymentBook, userId: int, limit: Option<nat>)
    requires BookValid(b)
    ensures var ps := UserPayments(b, userId, limit);
      var n := if limit.Some? then limit.value else DefaultLimit;
      && (forall k, t ::
            0 <= k < |ps| && t in b.byTxRef && b.byTxRef[t].userId == userId && LaterIn(b.order, t, ps[k].txRef)
            ==> b.byTxRef[t] in ps)
      && (n == 0 || |ps| < n ==> forall t :: t in b.byTxRef && b.byTxRef[t].userId == userId ==> b.byTxRef[t] in ps)
  {
    var n := if limit.Some? then limit.value else DefaultLimit;
    NewestViewComplete(b.byTxRef, b.order, TxRefOf, PaidBy(userId), Cap(b, n));
    if n == 0 || |UserPayments(b, userId, limit)| < n {
      UserPaymentsUncut(b, userId, limit);
    }
  }

  /** A limit of 0, or one not reached, returns every payment of the user. */
  lemma {:induction false} UserPaymentsUncut(b: PaymentBook, userId: int, limit: Option<nat>)
    requires BookValid(b)
    requires var n := if limit.Some? then limit.value else DefaultLimit;
      n == 0 || |UserPayments(b, userId, limit)| < n
    ensures forall t :: t in b.byTxRef && b.byTxRef[t].userId == userId ==> b.byTxRef[t] in UserPayments(b, userId, limit)
  {
    var cap := Cap(b, if limit.Some? then limit.value else DefaultLimit);
    assert |Filter(Reverse(Lookup(b.byTxRef, b.order)), PaidBy(userId))| <= cap;
    NewestViewUncut(b.byTxRef, b.order, PaidBy(userId), cap);
    forall t | t in b.byTxRef && b.byTxRef[t].userId == userId
      ensures b.byTxRef[t] in UserPayments(b, userId, limit)
    {
      var p :| 0 <= p < |b.order| && b.order[p] == t;
    }
  }

  /** The payment collection. */
  class PaymentStore {
    var byTxRef: map<string, Payment>
    var order: seq<string>

    function Contents(): PaymentBook
      reads this
    {
      PaymentBook(byTxRef, order)
    }

    ghost predicate Valid()
      reads this
    {
      BookValid(Contents())
    }

    constructor ()
      ensures Valid() && byTxRef == map[] && order == []
    {
      byTxRef := map[];
      order := [];
    }

    /** The static `createPayment`: a new record, refused for an empty or already used `tx_ref`. */
    method CreatePayment(input: PaymentInput, now: int) returns (res: Result<Payment>)
      requires Valid()
      modifies this
      ensures Valid()
      ensures input.txRef == "" || input.txRef in old(byTxRef) ==> res.Err? && Contents() == old(Contents())
      ensures !(input.txRef == "" || input.txRef in old(byTxRef)) ==>
                && res == Ok(NewPayment(input, now))
                && byTxRef == old(byTxRef)[input.txRef := NewPayment(input, now)]
                && order == old(order) + [input.txRef]
    {
      var p := NewPayment(input, now);
      if p.txRef == "" || p.txRef in byTxRef {
        return Err("Payment validation failed");
      }
      byTxRef := byTxRef[p.txRef := p];
      order := order + [p.txRef];
      res := Ok(p);
    }

    /** `markSuccess` on the stored payment `txRef`. */
    method MarkPaymentSuccess(txRef: string, chapaReference: Option<string>, now: int) returns (p: Payment)
      requires Valid() && txRef in byTxRef
      modifies this
      ensures Valid()
      ensures p == MarkSuccess(old(byTxRef)[txRef], chapaReference, now)
      ensures byTxRef == old(byTxRef)[txRef := p] && order == old(order)
    {
      p := byTxRef[txRef];
      p := p.(status := PaymentSuccess);
      p := p.(chapaReference := chapaReference);
      p := p.(processedAt := Some(now));
      byTxRef := byTxRef[txRef := p];
    }

    /** `markFailed` on the stored payment `txRef`. */
    method MarkPaymentFailed(txRef: string, now: int) returns (p: Payment)
      requires Valid() && txRef in byTxRef
      modifies this
      ensures Valid()
      ensures p == MarkFailed(old(byTxRef)[txRef], now)
      ensures byTxRef == old(byTxRef)[txRef := p] && order == old(order)
    {
      p := byTxRef[txRef];
      p := p.(status := PaymentFailed);
      p := p.(processedAt := Some(now));
      byTxRef := byTxRef[txRef := p];
    }

    /** `findByTxRef`. */
    method FindByTxRef(txRef: string) returns (p: Option<Payment>)
      requires Valid()
      ensures p.None? <==> txRef !in byTxRef
      ensures p.Some? ==> p.value == byTxRef[txRef] && p.value.txRef == txRef
    {
      p := if txRef in byTxRef then Some(byTxRef[txRef]) else None;
    }

    /** `getUserPayments(userId, limit)`; `None` is an omitted `limit`. */
    method GetUserPayments(userId: int, limit: Option<nat>) returns (ps: seq<Payment>)
      requires Valid()
      ensures ps == UserPayments(Contents(), userId, limit)
      ensures limit.None? ==> |ps| <= DefaultLimit
      ensures limit.Some? && limit.value > 0 ==> |ps| <= limit.value
      ensures forall p :: p in ps ==> p.userId == userId && p.txRef in byTxRef && byTxRef[p.txRef] == p
      ensures forall i, j :: 0 <= i < j < |ps| ==> LaterIn(order, ps[i].txRef, ps[j].txRef)
    {
      UserPaymentsContract(Contents(), userId, limit);
      ps := UserPayments(Contents(), userId, limit);
    }
  }
}
