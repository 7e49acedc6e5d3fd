/**
 * The payment provider client (server/services/PaymentService.ts): the
 * checkout request the bot sends, the guard on the provider's answer, and
 * the webhook signature decision.
 *
 * HTTP calls are replaced by their answers, HMAC-SHA256 by the function
 * parameter `hmac` (key, message) to hex digest, `JSON.stringify` by an
 * already computed result (`None` when it throws), `Date.now()` by `now`
 * and the random part of the reference by `suffix`.
 */
module PaymentService {
  import opened Common

  /** `PaymentRequest`. */
  datatype PaymentRequest = PaymentRequest(
    amount: string,
    currency: string,
    email: string,
    firstName: string,
    lastName: string,
    phoneNumber: string,
    txRef: string,
    returnUrl: Option<string>,
    callbackUrl: Option<string>)

  /** The part of the provider's initialize answer the code inspects: `data.checkout_url`. */
  datatype InitResponse = InitResponse(checkoutUrl: Option<string>, body: string)

  const InitFailedPrefix: string := "Payment initialization failed: "
  const NoPaymentUrl: string := "No payment URL received from Chapa API"

  /** `tx_<Date.now()>_<suffix>`. */
  function TxRef(now: int, suffix: string): string
  {
    "tx_" + IntToString(now) + "_" + suffix
  }

  /** The request `createPayment(userId, amount, mobile)` builds; `amountText` is `amount.toString()`. */
  function CreateRequest(userId: string, amountText: string, mobile: string, now: int, suffix: string): PaymentRequest
  {
    PaymentRequest(amountText, Etb, userId + "@example.com", userId, "User", mobile, TxRef(now, suffix), None, None)
  }

  /**
   * `initializePayment`: `provider` is the provider's answer (`Err`: the
   * request threw). An answer without a checkout URL fails; every failure
   * carries the "Payment initialization failed: " prefix.
   */
  function InitializePayment(provider: Result<InitResponse>): Result<InitResponse>
  {
    if provider.Err? then Err(InitFailedPrefix + provider.message)
    else if !Truthy(provider.value.checkoutUrl) then Err(InitFailedPrefix + NoPaymentUrl)
    else provider
  }

  /** `createPayment`: the request, then `initializePayment` on the provider's answer. */
  function CreatePayment(userId: string, amountText: string, mobile: string, now: int, suffix: string,
                         provider: PaymentRequest -> Result<InitResponse>): Result<InitResponse>
  {
    InitializePayment(provider(CreateRequest(userId, amountText, mobile, now, suffix)))
  }

  /**
   * `verifyWebhookSignature`: either signature header equals the hex HMAC of
   * the serialised body under the secret; a serialisation that throws gives
   * false.
   */
  function VerifyWebhookSignature(chapaSignature: Option<string>, xChapaSignature: Option<string>,
                                  secret: string, payload: Option<string>,
                                  hmac: (string, string) -> string): bool
  {
    if payload.None? then false
    else
      var expected := hmac(secret, payload.value);
      chapaSignature == Some(expected) || xChapaSignature == Some(expected)
  }

  /** The random part of a reference: base-36 digits, so no `_`. */
  predicate PlainSuffix(suffix: string)
  {
    forall i :: 0 <= i < |suffix| ==> suffix[i] != '_'
  }

  /** A decimal rendering never contains `_`. */
  lemma IntToStringHasNoUnderscore(n: int)
    ensures forall i :: 0 <= i < |IntToString(n)| ==> IntToString(n)[i] != '_'
  {
    var s := IntToString(n);
    if n < 0 {
      assert s == "-" + NatToString(-n);
      forall i | 0 <= i < |s|
        ensures s[i] != '_'
      {
        if i > 0 {
          assert s[i] == NatToString(-n)[i - 1];
        }
      }
    }
  }

  /**
   * A reference determines its timestamp and suffix: two payments created
   * at different instants, or with different random parts, never share a
   * `tx_ref`.
   */
  lemma TxRefInjective(t1: int, s1: string, t2: int, s2: string)
    requires PlainSuffix(s1) && PlainSuffix(s2)
    ensures TxRef(t1, s1) == TxRef(t2, s2) ==> t1 == t2 && s1 == s2
  {
    if TxRef(t1, s1) == TxRef(t2, s2) {
      var a1, a2 := IntToString(t1), IntToString(t2);
      IntToStringHasNoUnderscore(t1);
      IntToStringHasNoUnderscore(t2);
      var r := TxRef(t1, s1);
      assert r == "tx_" + a1 + "_" + s1 && r == "tx_" + a2 + "_" + s2;
      assert r[3..] == a1 + "_" + s1 == a2 + "_" + s2;
      SeparatorAlignsPrefixes(a1, s1, a2, s2);
      assert a1 == r[3..3 + |a1|] == a2;
      assert s1 == r[4 + |a1|..] == s2;
      IntToStringInjective(t1, t2);
    }
  }

  /** Two separator-joined pairs are equal only with equally long first parts, when those hold no separator. */
  lemma SeparatorAlignsPrefixes(a1: string, s1: string, a2: string, s2: string)
    requires a1 + "_" + s1 == a2 + "_" + s2
    requires forall i :: 0 <= i < |a1| ==> a1[i] != '_'
    requires forall i :: 0 <= i < |a2| ==> a2[i] != '_'
    ensures |a1| == |a2|
  {
    var r := a1 + "_" + s1;
    assert r[|a1|] == '_' && r[|a2|] == '_';
  }

  /**
   * The checkout request is in ETB for the amount's text, addressed to
   * `<userId>@example.com` with first name `userId` and last name "User",
   * for the given mobile number, under a `tx_<now>_<suffix>` reference.
   */
  lemma CreateRequestContract(userId: string, amountText: string, mobile: string, now: int, suffix: string)
    ensures var r := CreateRequest(userId, amountText, mobile, now, suffix);
      && r.currency == "ETB" && r.amount == amountText
      && r.email == userId + "@example.com" && r.firstName == userId && r.lastName == "User"
      && r.phoneNumber == mobile
      && r.txRef[..3] == "tx_" && r.txRef == "tx_" + IntToString(now) + "_" + suffix
  {
  }

  /**
   * `initializePayment` succeeds exactly when the provider answered with a
   * checkout URL, and then returns the answer unchanged; every failure is
   * prefixed "Payment initialization failed: ".
   */
  lemma InitializePaymentContract(provider: Result<InitResponse>)
    ensures var r := InitializePayment(provider);
      && (r.Ok? <==> provider.Ok? && Truthy(provider.value.checkoutUrl))
      && (r.Ok? ==> r == provider)
      && (r.Err? ==> |r.message| >= |InitFailedPrefix| && r.message[..|InitFailedPrefix|] == InitFailedPrefix)
  {
  }

  /**
   * The signature is accepted exactly when a header carries the expected
   * digest; with an unserialisable body it is never accepted, and absent
   * headers are never accepted.
   */
  lemma SignatureContract(chapaSignature: Option<string>, xChapaSignature: Option<string>,
                          secret: string, payload: Option<string>, hmac: (string, string) -> string)
    ensures VerifyWebhookSignature(chapaSignature, xChapaSignature, secret, payload, hmac)
            <==> payload.Some? && (chapaSignature == Some(hmac(secret, payload.value))
                                   || xChapaSignature == Some(hmac(secret, payload.value)))
    ensures chapaSignature.None? && xChapaSignature.None? ==>
              !VerifyWebhookSignature(chapaSignature, xChapaSignature, secret, payload, hmac)
  {
  }

  /**
   * A body signed with the secret is accepted through either header, whatever
   * the other header holds.
   */
  lemma SignedBodyAccepted(other: Option<string>, secret: string, body: string, hmac: (string, string) -> string)
    ensures VerifyWebhookSignature(Some(hmac(secret, body)), other, secret, Some(body), hmac)
    ensures VerifyWebhookSignature(other, Some(hmac(secret, body)), secret, Some(body), hmac)
  {
  }
}
