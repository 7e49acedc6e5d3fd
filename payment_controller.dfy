/**
 * The webhook endpoint and the status endpoint of
 * server/controllers/PaymentController.ts.
 *
 * A callback is answered 401 when a secret is configured and the signature
 * does not match, 400 when the provider's verification of `tx_ref` throws
 * or the credit fails, and 200 otherwise. The only write is the credit of
 * `parseFloat(amount)` to the ledger record `default-user`, made when the
 * body says `status: "success"` and `event: "charge.success"`.
 * `parseFloat` is the function parameter `parse` (`None` for NaN).
 */
module PaymentController {
  import opened Common
  import opened Balances
  import opened PaymentService

  /** The fields of the callback body the controller reads. */
  datatype CallbackBody = CallbackBody(
    txRef: Option<string>,
    status: Option<string>,
    currency: Option<string>,
    amount: Option<string>,
    event: Option<string>)

  /** The request as the controller sees it: headers, body and the body's serialisation. */
  datatype Callback = Callback(
    chapaSignature: Option<string>,
    xChapaSignature: Option<string>,
    body: CallbackBody,
    serialized: Option<string>)

  /** The environment of one delivery: `WEBHOOK_SECRET`, the HMAC and `parseFloat`. */
  datatype Env = Env(secret: Option<string>, hmac: (string, string) -> string, parse: string -> Option<real>)

  const Ok200: int := 200
  const BadRequest400: int := 400
  const Unauthorized401: int := 401

  /** The signature gate: only a configured (non-empty) secret is checked. */
  predicate Authorized(env: Env, cb: Callback)
  {
    !Truthy(env.secret)
    || VerifyWebhookSignature(cb.chapaSignature, cb.xChapaSignature, env.secret.value, cb.serialized, env.hmac)
  }

  /** The condition for the credit. */
  predicate Qualifies(body: CallbackBody)
  {
    body.status == Some("success") && body.event == Some("charge.success")
  }

  /**
   * `handlePaymentCallback`: the ledger after the delivery and the HTTP
   * status. `verified` is whether `verifyTransaction(tx_ref)` returned
   * rather than threw.
   */
  function HandleCallback(l: Ledger, env: Env, cb: Callback, verified: bool, now: int): (r: (Ledger, int))
    requires LedgerValid(l)
    ensures LedgerValid(r.0)
  {
    if !Authorized(env, cb) then (l, Unauthorized401)
    else if !verified then (l, BadRequest400)
    else if !Qualifies(cb.body) then (l, Ok200)
    else
      var x := env.parse(OrEmpty(cb.body.amount));
      if x.None? then
        // `balance += NaN` is refused by the save, after the record was fetched or created.
        (GetOrCreate(l, DefaultUser, now).0, BadRequest400)
      else
        var (l', res) := Increment(l, DefaultUser, x.value, now);
        (l', if res.Ok? then Ok200 else BadRequest400)
  }

  /** `getPaymentStatus`: 400 without a `tx_ref`, or when the provider call throws. */
  function PaymentStatusCode(txRef: Option<string>, providerAnswered: bool): int
  {
    if !Truthy(txRef) then BadRequest400 else if providerAnswered then Ok200 else BadRequest400
  }

  /** With a secret configured, a bad signature is refused with 401 and nothing is written. */
  lemma BadSignatureRefused(l: Ledger, env: Env, cb: Callback, verified: bool, now: int)
    requires LedgerValid(l) && Truthy(env.secret)
    requires !VerifyWebhookSignature(cb.chapaSignature, cb.xChapaSignature, env.secret.value, cb.serialized, env.hmac)
    ensures HandleCallback(l, env, cb, verified, now) == (l, 401)
  {
  }

  /** Without a secret the signature headers are not looked at. */
  lemma NoSecretIgnoresSignature(l: Ledger, env: Env, cb: Callback, sig1: Option<string>, sig2: Option<string>,
                                 verified: bool, now: int)
    requires LedgerValid(l) && !Truthy(env.secret)
    ensures HandleCallback(l, env, cb, verified, now)
            == HandleCallback(l, env, cb.(chapaSignature := sig1, xChapaSignature := sig2), verified, now)
  {
  }

  /** A failed verification answers 400 and credits nothing. */
  lemma UnverifiedNotCredited(l: Ledger, env: Env, cb: Callback, now: int)
    requires LedgerValid(l) && Authorized(env, cb)
    ensures HandleCallback(l, env, cb, false, now) == (l, 400)
  {
  }

  /**
   * Only a verified "charge.success" delivery with status "success" changes
   * the ledger, and only the record of `default-user`; a qualifying
   * delivery with a parsable amount answered 200 credits exactly that amount.
   */
  lemma CreditDecision(l: Ledger, env: Env, cb: Callback, verified: bool, now: int)
    requires LedgerValid(l)
    ensures var (l', code) := HandleCallback(l, env, cb, verified, now);
      && (l' != l ==> Authorized(env, cb) && verified && Qualifies(cb.body))
      && (forall u :: u != DefaultUser ==> (u in l' <==> u in l) && (u in l ==> l'[u] == l[u]))
      && (code == 200 && Qualifies(cb.body) ==>
            && env.parse(OrEmpty(cb.body.amount)).Some?
            && AmountOf(l', DefaultUser) == AmountOf(l, DefaultUser) + env.parse(OrEmpty(cb.body.amount)).value)
      && (code == 200 ==> Authorized(env, cb) && verified)
      && (code == 200 || code == 400 || code == 401)
  {
    var x := env.parse(OrEmpty(cb.body.amount));
    if Authorized(env, cb) && verified && Qualifies(cb.body) {
      if x.Some? {
        IncrementAddsAmount(l, DefaultUser, x.value, now);
      } else {
        GetOrCreateContract(l, DefaultUser, now);
      }
    }
  }

  /**
   * The credit goes to `default-user`, never to the ledger key of the chat
   * user who paid, so a Telegram user's balance is never raised by a payment.
   */
  lemma ChatUserNeverCredited(l: Ledger, env: Env, cb: Callback, verified: bool, now: int, telegramId: int)
    requires LedgerValid(l)
    ensures var (l', _) := HandleCallback(l, env, cb, verified, now);
      AmountOf(l', UserKey(telegramId)) == AmountOf(l, UserKey(telegramId))
  {
    UserKeyIsNotDefaultUser(telegramId);
    CreditDecision(l, env, cb, verified, now);
  }

  /**
   * Nothing records that a `tx_ref` was handled: delivering the same
   * qualifying callback twice credits its amount twice.
   */
  lemma ReplayCreditsTwice(l: Ledger, env: Env, cb: Callback, now1: int, now2: int, x: real)
    requires LedgerValid(l) && Authorized(env, cb) && Qualifies(cb.body)
    requires env.parse(OrEmpty(cb.body.amount)) == Some(x) && x >= 0.0
    ensures var (l1, c1) := HandleCallback(l, env, cb, true, now1);
      var (l2, c2) := HandleCallback(l1, env, cb, true, now2);
      c1 == 200 && c2 == 200 && AmountOf(l2, DefaultUser) == AmountOf(l, DefaultUser) + 2.0 * x
  {
    IncrementAddsAmount(l, DefaultUser, x, now1);
    var (l1, _) := HandleCallback(l, env, cb, true, now1);
    IncrementAddsAmount(l1, DefaultUser, x, now2);
  }

  /** The status endpoint refuses a missing or empty `tx_ref` before calling the provider. */
  lemma PaymentStatusNeedsTxRef(txRef: Option<string>, providerAnswered: bool)
    ensures PaymentStatusCode(txRef, providerAnswered) == 200 <==> Truthy(txRef) && providerAnswered
    ensures PaymentStatusCode(txRef, providerAnswered) in {200, 400}
    ensures !Truthy(txRef) ==> PaymentStatusCode(txRef, providerAnswered) == PaymentStatusCode(txRef, !providerAnswered)
  {
  }

  /** The webhook endpoint over the ledger. */
  method HandlePaymentCallback(balances: BalanceStore, env: Env, cb: Callback, verified: bool, now: int)
    returns (code: int)
    requires balances.Valid()
    modifies balances
    ensures balances.Valid()
    ensures (balances.records, code) == HandleCallback(old(balances.records), env, cb, verified, now)
  {
    if Truthy(env.secret) {
      var isValid := VerifyWebhookSignature(cb.chapaSignature, cb.xChapaSignature, env.secret.value, cb.serialized, env.hmac);
      if !isValid {
        return Unauthorized401;
      }
    }
    if !verified {
      return BadRequest400;
    }
    if cb.body.status == Some("success") && cb.body.event == Some("charge.success") {
      var x := env.parse(OrEmpty(cb.body.amount));
      if x.None? {
        var _ := balances.GetBalance(DefaultUser, now);
        return BadRequest400;
      }
      var res := balances.IncrementBalance(DefaultUser, x.value, now);
      if res.Err? {
        return BadRequest400;
      }
    }
    code := Ok200;
  }
}
