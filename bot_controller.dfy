/**
 * The chat-side controller (server/controllers/TelegramBotController.ts):
 * the blocked-user gate, the menu handlers that move a session into a flow,
 * the two `process*` steps that end a flow, the withdrawal history reply and
 * the five-minute bank-list cache.
 *
 * The controller drives four stores at once. Their contents together are a
 * `World`; each handler is specified by a function from the world before to
 * the world after, and the controller's methods are proved to step the
 * stores exactly as that function says. Everything the outside supplies
 * (clock, `parseFloat`, number and date formatting, the random part of a
 * payment reference, the provider's answers) is an `Env`.
 */
module BotController {
  import opened Common
  import opened Balances
  import Users
  import Sessions
  import Withdrawals
  import PaymentService

  /** A bank as the provider lists it. */
  datatype Bank = Bank(id: int, name: string)

  /** `BANKS_CACHE_DURATION`: five minutes. */
  const BanksCacheDuration: int := 5 * MinuteMs

  /** The contents of the four stores the bot works on. */
  datatype World = World(
    users: Users.UserMap,
    sessions: Sessions.SessionMap,
    ledger: Ledger,
    book: Withdrawals.Book)

  predicate WorldValid(w: World)
  {
    Users.MapValid(w.users) && Sessions.MapValid(w.sessions) && LedgerValid(w.ledger) && Withdrawals.BookValid(w.book)
  }

  /**
   * What one update receives from outside: `Date.now()`, `parseFloat`,
   * `toString` of a number, `toLocaleDateString`, the random part of a new
   * `tx_ref`, the provider's answers (checkout, transfer, bank list; `None`
   * where the request threw) and whether the ledger or the history query fails.
   */
  datatype Env = Env(
    now: int,
    parse: string -> Option<real>,
    show: real -> string,
    date: int -> string,
    suffix: string,
    checkout: PaymentService.PaymentRequest -> Result<PaymentService.InitResponse>,
    balanceReadFails: bool,
    transfer: Option<Withdrawals.TransferResponse>,
    fetchedBanks: Option<seq<Bank>>,
    historyFails: bool)

  /** How a `processPayment` or `processWithdrawal` call ended. */
  datatype ProcessOutcome =
    | Skipped                 // `initializeUser` returned null
    | InvalidData             // a draft field is missing
    | InvalidAmount           // the amount is NaN or not positive
    | Failed(message: string) // the service threw; the catch block ran
    | PaymentCreated(response: PaymentService.InitResponse)
    | WithdrawalSubmitted(withdrawal: Withdrawals.Withdrawal)

  /** A number field of a draft is truthy when present and not 0. */
  predicate TruthyInt(x: Option<int>)
  {
    x.Some? && x.value != 0
  }

  // ---------------------------------------------------------------- gate

  /**
   * `initializeUser`: no sender or a blocked user ends the request before
   * any store is touched; otherwise the user is fetched or created, the
   * session fetched or created, and the user's activity stamped. A user
   * that cannot be saved also ends the request.
   */
  function Initialized(w: World, from: Option<Users.Profile>, now: int): (r: (World, bool))
    requires WorldValid(w)
    ensures WorldValid(r.0)
    ensures r.1 ==> from.Some? && from.value.telegramId in r.0.sessions
  {
    if from.None? then (w, false)
    else
      var id := from.value.telegramId;
      if id in w.users && w.users[id].isBlocked then (w, false)
      else
        var (u1, res) := Users.GetOrCreateIn(w.users, from.value, now);
        if res.Err? then (w.(users := u1), false)
        else
          var (s1, _) := Sessions.GetOrCreate(w.sessions, id, now);
          (w.(users := Users.TouchIn(u1, id, now), sessions := s1), true)
  }

  // ---------------------------------------------------------------- menu handlers

  /** `handleStart`: the session is cleared after the gate. */
  function Started(w: World, from: Option<Users.Profile>, now: int): (r: World)
    requires WorldValid(w)
    ensures WorldValid(r)
  {
    var (w1, ok) := Initialized(w, from, now);
    if !ok then w1 else w1.(sessions := Sessions.ClearIn(w1.sessions, from.value.telegramId))
  }

  /** `handlePaymentInitiation`: the session moves to `awaiting_amount`. */
  function PaymentInitiated(w: World, from: Option<Users.Profile>, now: int): (r: World)
    requires WorldValid(w)
    ensures WorldValid(r)
  {
    var (w1, ok) := Initialized(w, from, now);
    if !ok then w1
    else w1.(sessions := Sessions.UpdateIn(w1.sessions, from.value.telegramId, Sessions.AwaitingAmount, Sessions.NoUpdate, now))
  }

  /**
   * `handleWithdrawalInitiation`: `getBalance("user-<id>")` (which creates a
   * zero record); a balance of 0 or less is refused, otherwise the session
   * moves to `awaiting_withdrawal_amount`. The flag says whether it moved.
   */
  function WithdrawalInitiated(w: World, from: Option<Users.Profile>, now: int): (r: (World, bool))
    requires WorldValid(w)
    ensures WorldValid(r.0)
  {
    var (w1, ok) := Initialized(w, from, now);
    if !ok then (w1, false)
    else
      var id := from.value.telegramId;
      var (l1, b) := GetOrCreate(w1.ledger, UserKey(id), now);
      if b.balance <= 0.0 then (w1.(ledger := l1), false)
      else (w1.(ledger := l1, sessions := Sessions.UpdateIn(w1.sessions, id, Sessions.AwaitingWithdrawalAmount, Sessions.NoUpdate, now)), true)
  }

  // ---------------------------------------------------------------- history reply

  const NoHistory: string := "📋 No withdrawal history found."
  const HistoryHeader: string := "📋 Recent Withdrawals:\n\n"
  /** At most this many withdrawals are listed. */
  const HistoryShown: nat := 5

  /** The icon of a withdrawal status; anything outside the enum gets ❓. */
  function StatusIcon(status: string): string
  {
    if status == Withdrawals.Pending then "⏳"
    else if status == Withdrawals.Processing then "🔄"
    else if status == Withdrawals.Completed then "✅"
    else if status == Withdrawals.Failed then "❌"
    else if status == Withdrawals.Reverted then "↩️"
    else "❓"
  }

  /** The line of the history reply for the withdrawal at position `index`. */
  function Entry(index: nat, w: Withdrawals.Withdrawal, env: Env): string
  {
    NatToString(index + 1) + ". " + StatusIcon(w.status) + " " + env.show(w.amount) + " ETB\n"
    + "   Bank: " + w.bankName + "\n"
    + "   Account: " + w.accountNumber + "\n"
    + "   Status: " + w.status + "\n"
    + "   Date: " + env.date(w.createdAt) + "\n\n"
  }

  /** The entries of `ws`, numbered from 1. */
  function Entries(ws: seq<Withdrawals.Withdrawal>, env: Env): string
  {
    if ws == [] then "" else Entries(ws[..|ws| - 1], env) + Entry(|ws| - 1, ws[|ws| - 1], env)
  }

  /** The reply to "📋 Withdrawal History" for the history `ws`. */
  function HistoryReply(ws: seq<Withdrawals.Withdrawal>, env: Env): string
  {
    if |ws| == 0 then NoHistory else HistoryHeader + Entries(Take(ws, HistoryShown), env)
  }

  /** The five statuses have five different icons, and only an unknown status gets ❓. */
  lemma StatusIconContract(s: string, t: string)
    ensures StatusIcon(s) == "❓" <==> !Withdrawals.ValidStatus(s)
    ensures Withdrawals.ValidStatus(s) && Withdrawals.ValidStatus(t) && s != t ==> StatusIcon(s) != StatusIcon(t)
  {
  }

  /** The entries of a non-empty list start with the first withdrawal, numbered 1. */
  lemma {:induction false} EntriesStartWithFirst(ws: seq<Withdrawals.Withdrawal>, env: Env)
    requires ws != []
    ensures var e := Entries(ws, env); var first := Entry(0, ws[0], env);
      |first| <= |e| && e[..|first|] == first
  {
    var first := Entry(0, ws[0], env);
    if |ws| == 1 {
      assert ws[..0] == [];
      assert Entries(ws, env) == first;
    } else {
      var init := ws[..|ws| - 1];
      EntriesStartWithFirst(init, env);
      assert init[0] == ws[0];
      var e := Entries(init, env);
      assert Entries(ws, env) == e + Entry(|ws| - 1, ws[|ws| - 1], env);
      PrefixOfAppend(e, Entry(|ws| - 1, ws[|ws| - 1], env), |first|);
    }
  }

  /**
   * An empty history gets "📋 No withdrawal history found."; otherwise the
   * reply is the header followed by the newest withdrawal as entry 1, and
   * withdrawals after the fifth do not change it.
   */
  lemma HistoryReplyContract(ws: seq<Withdrawals.Withdrawal>, env: Env)
    ensures ws == [] ==> HistoryReply(ws, env) == NoHistory
    ensures ws != [] ==>
      var r := HistoryReply(ws, env); var first := HistoryHeader + Entry(0, ws[0], env);
      |first| <= |r| && r[..|first|] == first
    ensures |ws| > HistoryShown ==> HistoryReply(ws, env) == HistoryReply(ws[..HistoryShown], env)
  {
    if ws != [] {
      var shown := Take(ws, HistoryShown);
      EntriesStartWithFirst(shown, env);
      var e := Entries(shown, env);
      var r := HistoryHeader + e;
      var first := Entry(0, ws[0], env);
      PrefixPastAppend(HistoryHeader, e, |first|);
    }
  }

  /** `handleWithdrawalHistory`: after the gate, the reply for the user's history (none when gated). */
  function HistoryShownTo(w: World, from: Option<Users.Profile>, env: Env): (r: (World, Option<string>))
    requires WorldValid(w)
    ensures WorldValid(r.0)
  {
    var (w1, ok) := Initialized(w, from, env.now);
    if !ok then (w1, None)
    else
      var ws := if env.historyFails then [] else Withdrawals.History(w1.book, UserKey(from.value.telegramId));
      (w1, Some(HistoryReply(ws, env)))
  }

  // ---------------------------------------------------------------- ending a flow

  /**
   * `processPayment(ctx, userId)`: the payment draft needs a truthy amount
   * and mobile, the amount must parse to a positive number, then the
   * checkout is created for `user-<id>`; on success the user's payment
   * statistics are updated. Every path after the gate clears the session;
   * the catch block clears the session of `userId`.
   */
  function PaymentProcessed(w: World, from: Option<Users.Profile>, userId: int, env: Env): (r: (World, ProcessOutcome))
    requires WorldValid(w)
    ensures WorldValid(r.0)
  {
    var (w1, ok) := Initialized(w, from, env.now);
    if !ok then (w1, Skipped) else PaymentAfterGate(w1, from.value.telegramId, userId, env)
  }

  /** The body of `processPayment` after the gate, for the sender `id`. */
  function PaymentAfterGate(w1: World, id: int, userId: int, env: Env): (r: (World, ProcessOutcome))
    requires WorldValid(w1) && id in w1.sessions
    ensures WorldValid(r.0)
  {
    var pd := w1.sessions[id].paymentData;
    if !Truthy(pd.amount) || !Truthy(pd.mobile) then (w1.(sessions := Sessions.ClearIn(w1.sessions, id)), InvalidData)
    else
      PaymentOfDraft(w1, Sessions.UpdateIn(w1.sessions, id, Sessions.ProcessingPayment, Sessions.NoUpdate, env.now),
                     id, userId, pd, env)
  }

  /**
   * The rest of `processPayment` for a draft with a truthy amount and
   * mobile, once the sessions are `s2` (the state set to processing).
   */
  function PaymentOfDraft(w1: World, s2: Sessions.SessionMap, id: int, userId: int, pd: Sessions.PaymentDraft, env: Env)
    : (r: (World, ProcessOutcome))
    requires WorldValid(w1) && Sessions.MapValid(s2)
    requires Truthy(pd.amount) && Truthy(pd.mobile)
    ensures WorldValid(r.0)
  {
    var x := env.parse(pd.amount.value);
    if x.None? || x.value <= 0.0 then (w1.(sessions := Sessions.ClearIn(s2, id)), InvalidAmount)
    else
      var res := PaymentService.CreatePayment(UserKey(id), env.show(x.value), pd.mobile.value, env.now, env.suffix, env.checkout);
      if res.Err? then (w1.(sessions := Sessions.ClearIn(s2, userId)), Failed(res.message))
      else (w1.(users := Users.PaymentStatsIn(w1.users, id, x.value, env.now), sessions := Sessions.ClearIn(s2, id)),
            PaymentCreated(res.value))
  }

  /** The request `createWithdrawal` is given: the draft's fields for `user-<id>`. */
  function WithdrawalRequestFor(id: int, amount: real, wd: Sessions.WithdrawalDraft): Withdrawals.Request
    requires wd.accountName.Some? && wd.accountNumber.Some? && wd.bankCode.Some?
  {
    Withdrawals.Request(amount, wd.accountName.value, wd.accountNumber.value, wd.bankCode.value,
                        OrEmpty(wd.bankName), Some(UserKey(id)))
  }

  /**
   * `processWithdrawal(ctx, userId)`: the withdrawal draft needs a truthy
   * amount, account name, account number and bank code, the amount must
   * parse to a positive number, then the withdrawal is initiated for
   * `user-<id>`; on success the user's withdrawal statistics are updated.
   * Every path after the gate clears the session; the catch block clears
   * the session of `userId`.
   */
  function WithdrawalProcessed(w: World, from: Option<Users.Profile>, userId: int, env: Env): (r: (World, ProcessOutcome))
    requires WorldValid(w)
    ensures WorldValid(r.0)
  {
    var (w1, ok) := Initialized(w, from, env.now);
    if !ok then (w1, Skipped) else WithdrawalAfterGate(w1, from.value.telegramId, userId, env)
  }

  /** The body of `processWithdrawal` after the gate, for the sender `id`. */
  function WithdrawalAfterGate(w1: World, id: int, userId: int, env: Env): (r: (World, ProcessOutcome))
    requires WorldValid(w1) && id in w1.sessions
    ensures WorldValid(r.0)
  {
    var wd := w1.sessions[id].withdrawalData;
    if !Truthy(wd.amount) || !Truthy(wd.accountName) || !Truthy(wd.accountNumber) || !TruthyInt(wd.bankCode) then
      (w1.(sessions := Sessions.ClearIn(w1.sessions, id)), InvalidData)
    else
      WithdrawalOfDraft(w1, Sessions.UpdateIn(w1.sessions, id, Sessions.ProcessingWithdrawal, Sessions.NoUpdate, env.now),
                        id, userId, wd, env)
  }

  /**
   * The rest of `processWithdrawal` for a draft with every field truthy,
   * once the sessions are `s2` (the state set to processing).
   */
  function WithdrawalOfDraft(w1: World, s2: Sessions.SessionMap, id: int, userId: int, wd: Sessions.WithdrawalDraft, env: Env)
    : (r: (World, ProcessOutcome))
    requires WorldValid(w1) && Sessions.MapValid(s2)
    requires Truthy(wd.amount) && Truthy(wd.accountName) && Truthy(wd.accountNumber) && TruthyInt(wd.bankCode)
    ensures WorldValid(r.0)
  {
    var x := env.parse(wd.amount.value);
    if x.None? || x.value <= 0.0 then (w1.(sessions := Sessions.ClearIn(s2, id)), InvalidAmount)
    else
      var o := Withdrawals.Initiate(w1.ledger, w1.book, WithdrawalRequestFor(id, x.value, wd), env.now,
                                    env.balanceReadFails, env.transfer);
      if o.result.Err? then
        (w1.(ledger := o.ledger, book := o.book, sessions := Sessions.ClearIn(s2, userId)), Failed(o.result.message))
      else
        (World(Users.WithdrawalStatsIn(w1.users, id, x.value, env.now), Sessions.ClearIn(s2, id), o.ledger, o.book),
         WithdrawalSubmitted(o.result.value))
  }

  // ---------------------------------------------------------------- bank list cache

  /** The static `banksCache` and `banksCacheTime`. */
  datatype BankCache = BankCache(banks: seq<Bank>, time: int)

  predicate CacheFresh(c: BankCache, now: int)
  {
    |c.banks| > 0 && now - c.time < BanksCacheDuration
  }

  /**
   * `getBanksForSelection`: the cache while it is fresh; otherwise the
   * fetched list, which replaces the cache; a failed fetch gives the empty
   * list and keeps the cache.
   */
  function BanksFor(c: BankCache, now: int, fetched: Option<seq<Bank>>): (r: (BankCache, seq<Bank>))
  {
    if CacheFresh(c, now) then (c, c.banks)
    else if fetched.None? then (c, [])
    else (BankCache(fetched.value, now), fetched.value)
  }

  /**
   * The cache is served exactly while it is non-empty and younger than five
   * minutes; a fetched list is what is served and cached, stamped now; a
   * failed fetch serves nothing and leaves the cache as it was.
   */
  lemma BanksForContract(c: BankCache, now: int, fetched: Option<seq<Bank>>)
    ensures var (c', banks) := BanksFor(c, now, fetched);
      && (CacheFresh(c, now) <==> |c.banks| > 0 && now - c.time < 5 * 60 * 1000)
      && (CacheFresh(c, now) ==> c' == c && banks == c.banks)
      && (!CacheFresh(c, now) && fetched.Some? ==> banks == fetched.value && c' == BankCache(fetched.value, now))
      && (!CacheFresh(c, now) && fetched.None? ==> banks == [] && c' == c)
      && (c' != c ==> !CacheFresh(c, now) && fetched.Some? && c'.time == now)
  {
  }

  /** A freshly fetched non-empty list is served, unchanged, for the next five minutes whatever the fetch would give. */
  lemma FetchedListServedForFiveMinutes(c: BankCache, t: int, banks: seq<Bank>, later: int, fetched: Option<seq<Bank>>)
    requires !CacheFresh(c, t) && |banks| > 0 && t <= later < t + BanksCacheDuration
    ensures var (c1, _) := BanksFor(c, t, Some(banks));
      BanksFor(c1, later, fetched) == (c1, banks)
  {
  }

  // ---------------------------------------------------------------- properties of the handlers

  /**
   * No sender, or a blocked sender, leaves every store as it was; a sender
   * that passes the gate has a session and a record afterwards, is not
   * blocked, and other users are untouched.
   */
  lemma GateContract(w: World, from: Option<Users.Profile>, now: int)
    requires WorldValid(w)
    ensures var (w', ok) := Initialized(w, from, now);
      && (from.None? ==> w' == w && !ok)
      && (from.Some? && from.value.telegramId in w.users && w.users[from.value.telegramId].isBlocked ==> w' == w && !ok)
      && (ok ==> from.value.telegramId in w'.users && !w'.users[from.value.telegramId].isBlocked
                 && from.value.telegramId in w'.sessions && w'.sessions[from.value.telegramId].isActive)
      && w'.ledger == w.ledger && w'.book == w.book
      && (!ok ==> w' == w)
      && (from.Some? && !(from.value.telegramId in w.users && w.users[from.value.telegramId].isBlocked)
          ==> (ok <==> Truthy(from.value.firstName)))
  {
    if from.Some? {
      var id := from.value.telegramId;
      if !(id in w.users && w.users[id].isBlocked) {
        Users.GetOrCreateContract(w.users, from.value, now);
        Sessions.GetOrCreateContract(w.sessions, id, now);
      }
    }
  }

  // ---------------------------------------------------------------- the sender as Telegram names it

  /** grammy's `ctx.from`: Telegram's own field names; `first_name` is always present. */
  datatype TelegramSender = TelegramSender(id: int, first_name: string, last_name: Option<string>, username: Option<string>)

  /**
   * The object `getOrCreateUser` receives when `ctx.from` is passed as it
   * is: only `username` carries a schema name, so `firstName` and
   * `lastName` read as undefined (and `telegramId` too, which makes the
   * lookup key immaterial: both save paths then miss the required first
   * name).
   */
  function PassedAsWritten(s: TelegramSender): Users.Profile
  {
    Users.Profile(s.id, s.username, None, None)
  }

  /** The evidently intended mapping of `ctx.from` onto the service's `userData`. */
  function ProfileOf(s: TelegramSender): Users.Profile
  {
    Users.Profile(s.id, s.username, Some(s.first_name), s.last_name)
  }

  /** `initializeUser` exactly as written: the sender's object goes to `getOrCreateUser` unchanged. */
  function InitializedAsWritten(w: World, from: Option<TelegramSender>, now: int): (World, bool)
    requires WorldValid(w)
  {
    Initialized(w, if from.Some? then Some(PassedAsWritten(from.value)) else None, now)
  }

  /** As written, the gate lets nobody through and writes nothing: every chat handler stops at it. */
  lemma AsWrittenGateNeverPasses(w: World, from: Option<TelegramSender>, now: int)
    requires WorldValid(w)
    ensures InitializedAsWritten(w, from, now) == (w, false)
  {
    if from.Some? {
      Users.GetOrCreateContract(w.users, PassedAsWritten(from.value), now);
    }
  }

  /**
   * With the sender's fields mapped, every unblocked sender with a first
   * name passes the gate and ends with an active session.
   */
  lemma CorrectedGateAdmitsSender(w: World, s: TelegramSender, now: int)
    requires WorldValid(w) && s.first_name != ""
    requires !(s.id in w.users && w.users[s.id].isBlocked)
    ensures var (w', ok) := Initialized(w, Some(ProfileOf(s)), now);
      ok && s.id in w'.users && s.id in w'.sessions && w'.sessions[s.id].isActive
  {
    GateContract(w, Some(ProfileOf(s)), now);
  }

  /** `/start` leaves a gated sender's session idle and inactive; `💰 Make Payment` leaves it awaiting an amount. */
  lemma MenuHandlersContract(w: World, from: Option<Users.Profile>, now: int)
    requires WorldValid(w)
    ensures var (w1, ok) := Initialized(w, from, now);
      && (ok ==> var s := Started(w, from, now).sessions[from.value.telegramId];
                   s.state == Sessions.Idle && !s.isActive
                   && s.paymentData == Sessions.EmptyPayment && s.withdrawalData == Sessions.EmptyWithdrawal)
      && (ok ==> var s := PaymentInitiated(w, from, now).sessions[from.value.telegramId];
                   s.state == Sessions.AwaitingAmount && s.isActive)
      && (!ok ==> Started(w, from, now) == w && PaymentInitiated(w, from, now) == w)
  {
    GateContract(w, from, now);
    var (w1, ok) := Initialized(w, from, now);
    if ok {
      Sessions.UpdateSessionStateContract(w1.sessions, from.value.telegramId, Sessions.AwaitingAmount, Sessions.NoUpdate, now);
    }
  }

  /**
   * `🏦 Withdraw Funds` moves the session to `awaiting_withdrawal_amount`
   * exactly when the sender's balance is positive; when refused, the
   * session is as the gate left it.
   */
  lemma WithdrawalInitiationContract(w: World, from: Option<Users.Profile>, now: int)
    requires WorldValid(w)
    ensures var (w1, ok) := Initialized(w, from, now);
      var (w', moved) := WithdrawalInitiated(w, from, now);
      && (moved <==> ok && AmountOf(w.ledger, UserKey(from.value.telegramId)) > 0.0)
      && (!moved ==> w'.sessions == w1.sessions && w'.users == w1.users)
      && (moved ==> w'.sessions[from.value.telegramId].state == Sessions.AwaitingWithdrawalAmount)
      && w'.book == w.book
      && (ok ==> AmountOf(w'.ledger, UserKey(from.value.telegramId)) == AmountOf(w.ledger, UserKey(from.value.telegramId)))
  {
    GateContract(w, from, now);
    var (w1, ok) := Initialized(w, from, now);
    if ok {
      var id := from.value.telegramId;
      GetOrCreateContract(w1.ledger, UserKey(id), now);
      Sessions.UpdateSessionStateContract(w1.sessions, id, Sessions.AwaitingWithdrawalAmount, Sessions.NoUpdate, now);
    }
  }

  /** The session of `id` is cleared: idle, inactive, with empty drafts. */
  predicate ClearedFor(m: Sessions.SessionMap, id: int)
  {
    id in m && m[id].state == Sessions.Idle && !m[id].isActive
    && m[id].paymentData == Sessions.EmptyPayment && m[id].withdrawalData == Sessions.EmptyWithdrawal
  }

  /** `clearSession` on an existing session leaves it cleared. */
  lemma ClearInClears(m: Sessions.SessionMap, id: int)
    requires Sessions.MapValid(m) && id in m
    ensures ClearedFor(Sessions.ClearIn(m, id), id)
  {
    Sessions.ClearContract(m[id]);
  }

  /**
   * Every path of `processPayment` past the gate ends with the sender's
   * session cleared; a payment is created only from a draft with a truthy
   * amount and mobile whose amount parses to a positive number, and only
   * then are the statistics touched. The ledger and the withdrawals are
   * never touched.
   */
  lemma PaymentProcessedContract(w: World, from: Option<Users.Profile>, env: Env)
    requires WorldValid(w)
    ensures var (w1, ok) := Initialized(w, from, env.now);
      var (w', outcome) := PaymentProcessed(w, from, if from.Some? then from.value.telegramId else 0, env);
      && (ok <==> !outcome.Skipped?)
      && (!ok ==> w' == w)
      && (ok ==> ClearedFor(w'.sessions, from.value.telegramId))
      && (outcome.PaymentCreated? ==>
            var pd := w1.sessions[from.value.telegramId].paymentData;
            && Truthy(pd.amount) && Truthy(pd.mobile)
            && env.parse(pd.amount.value).Some? && env.parse(pd.amount.value).value > 0.0)
      && (!outcome.PaymentCreated? ==> w'.users == w1.users)
      && w'.ledger == w.ledger && w'.book == w.book
  {
    GateContract(w, from, env.now);
    var (w1, ok) := Initialized(w, from, env.now);
    if ok {
      PaymentAfterGateContract(w1, from.value.telegramId, env);
    }
  }

  /**
   * Past the gate, `processPayment` for the sender ends with the session
   * cleared, creates a checkout only from a complete draft with a positive
   * amount, and touches the statistics only then.
   */
  lemma PaymentAfterGateContract(w1: World, id: int, env: Env)
    requires WorldValid(w1) && id in w1.sessions
    ensures var (w', outcome) := PaymentAfterGate(w1, id, id, env);
      && !outcome.Skipped?
      && ClearedFor(w'.sessions, id)
      && (outcome.PaymentCreated? ==>
            var pd := w1.sessions[id].paymentData;
            && Truthy(pd.amount) && Truthy(pd.mobile)
            && env.parse(pd.amount.value).Some? && env.parse(pd.amount.value).value > 0.0)
      && (!outcome.PaymentCreated? ==> w'.users == w1.users)
      && w'.ledger == w1.ledger && w'.book == w1.book
  {
    var pd := w1.sessions[id].paymentData;
    if Truthy(pd.amount) && Truthy(pd.mobile) {
      var s2 := Sessions.UpdateIn(w1.sessions, id, Sessions.ProcessingPayment, Sessions.NoUpdate, env.now);
      Sessions.UpdateSessionStateContract(w1.sessions, id, Sessions.ProcessingPayment, Sessions.NoUpdate, env.now);
      PaymentOfDraftContract(w1, s2, id, pd, env);
    }
  }

  /**
   * With a complete draft, the session ends cleared whichever way the
   * amount and the checkout turn out, and only a created checkout, from a
   * positive amount, touches the statistics.
   */
  lemma PaymentOfDraftContract(w1: World, s2: Sessions.SessionMap, id: int, pd: Sessions.PaymentDraft, env: Env)
    requires WorldValid(w1) && Sessions.MapValid(s2) && id in s2
    requires Truthy(pd.amount) && Truthy(pd.mobile)
    ensures var (w', outcome) := PaymentOfDraft(w1, s2, id, id, pd, env);
      && !outcome.Skipped? && !outcome.InvalidData?
      && ClearedFor(w'.sessions, id)
      && (outcome.PaymentCreated? ==> env.parse(pd.amount.value).Some? && env.parse(pd.amount.value).value > 0.0)
      && (!outcome.PaymentCreated? ==> w'.users == w1.users)
      && w'.ledger == w1.ledger && w'.book == w1.book
  {
    ClearInClears(s2, id);
  }

  /**
   * Every path of `processWithdrawal` past the gate ends with the sender's
   * session cleared; nothing is asked of the withdrawal service, and the
   * ledger and the withdrawals are untouched, unless the draft has every
   * field and a positive amount.
   */
  lemma WithdrawalProcessedContract(w: World, from: Option<Users.Profile>, env: Env)
    requires WorldValid(w)
    ensures var (w1, ok) := Initialized(w, from, env.now);
      var (w', outcome) := WithdrawalProcessed(w, from, if from.Some? then from.value.telegramId else 0, env);
      && (ok <==> !outcome.Skipped?)
      && (!ok ==> w' == w)
      && (ok ==> ClearedFor(w'.sessions, from.value.telegramId))
      && ((outcome.Skipped? || outcome.InvalidData? || outcome.InvalidAmount?) ==>
            w'.ledger == w.ledger && w'.book == w.book && w'.users == w1.users)
      && (outcome.WithdrawalSubmitted? ==>
            var wd := w1.sessions[from.value.telegramId].withdrawalData;
            && Truthy(wd.amount) && Truthy(wd.accountName) && Truthy(wd.accountNumber) && TruthyInt(wd.bankCode))
  {
    GateContract(w, from, env.now);
    var (w1, ok) := Initialized(w, from, env.now);
    if ok {
      WithdrawalAfterGateContract(w1, from.value.telegramId, env);
    }
  }

  /**
   * Past the gate, `processWithdrawal` for the sender ends with the session
   * cleared, and reaches the withdrawal service only with a complete draft
   * and a positive amount.
   */
  lemma WithdrawalAfterGateContract(w1: World, id: int, env: Env)
    requires WorldValid(w1) && id in w1.sessions
    ensures var (w', outcome) := WithdrawalAfterGate(w1, id, id, env);
      && !outcome.Skipped?
      && ClearedFor(w'.sessions, id)
      && ((outcome.InvalidData? || outcome.InvalidAmount?) ==>
            w'.ledger == w1.ledger && w'.book == w1.book && w'.users == w1.users)
      && (outcome.WithdrawalSubmitted? ==>
            var wd := w1.sessions[id].withdrawalData;
            && Truthy(wd.amount) && Truthy(wd.accountName) && Truthy(wd.accountNumber) && TruthyInt(wd.bankCode))
  {
    var wd := w1.sessions[id].withdrawalData;
    if Truthy(wd.amount) && Truthy(wd.accountName) && Truthy(wd.accountNumber) && TruthyInt(wd.bankCode) {
      var s2 := Sessions.UpdateIn(w1.sessions, id, Sessions.ProcessingWithdrawal, Sessions.NoUpdate, env.now);
      Sessions.UpdateSessionStateContract(w1.sessions, id, Sessions.ProcessingWithdrawal, Sessions.NoUpdate, env.now);
      WithdrawalOfDraftContract(w1, s2, id, wd, env);
    }
  }

  /**
   * With a complete draft, the session ends cleared whichever way the
   * amount and the service turn out, and a non-positive amount leaves the
   * ledger, the withdrawals and the statistics as they were.
   */
  lemma WithdrawalOfDraftContract(w1: World, s2: Sessions.SessionMap, id: int, wd: Sessions.WithdrawalDraft, env: Env)
    requires WorldValid(w1) && Sessions.MapValid(s2) && id in s2
    requires Truthy(wd.amount) && Truthy(wd.accountName) && Truthy(wd.accountNumber) && TruthyInt(wd.bankCode)
    ensures var (w', outcome) := WithdrawalOfDraft(w1, s2, id, id, wd, env);
      && !outcome.Skipped? && !outcome.InvalidData?
      && ClearedFor(w'.sessions, id)
      && (outcome.InvalidAmount? <==> env.parse(wd.amount.value).None? || env.parse(wd.amount.value).value <= 0.0)
      && (outcome.InvalidAmount? ==> w'.ledger == w1.ledger && w'.book == w1.book && w'.users == w1.users)
  {
    ClearInClears(s2, id);
  }

  /**
   * The controller: four stores, shared with the services, and the static
   * bank-list cache.
   */
  class TelegramBotController {
    const users: Users.UserStore
    const sessions: Sessions.SessionStore
    const balances: BalanceStore
    const withdrawals: Withdrawals.WithdrawalStore
    var banksCache: seq<Bank>
    var banksCacheTime: int

    function Snapshot(): World
      reads users, sessions, balances, withdrawals
    {
      World(users.users, sessions.sessions, balances.records, withdrawals.Contents())
    }

    function Cache(): BankCache
      reads this
    {
      BankCache(banksCache, banksCacheTime)
    }

    ghost predicate Valid()
      reads users, sessions, balances, withdrawals
    {
      users.Valid() && sessions.Valid() && balances.Valid() && withdrawals.Valid()
    }

    constructor (users: Users.UserStore, sessions: Sessions.SessionStore, balances: BalanceStore,
                 withdrawals: Withdrawals.WithdrawalStore)
      requires users.Valid() && sessions.Valid() && balances.Valid() && withdrawals.Valid()
      ensures Valid()
      ensures this.users == users && this.sessions == sessions && this.balances == balances && this.withdrawals == withdrawals
      ensures Cache() == BankCache([], 0)
    {
      this.users := users;
      this.sessions := sessions;
      this.balances := balances;
      this.withdrawals := withdrawals;
      banksCache := [];
      banksCacheTime := 0;
    }

    /** `initializeUser`. */
    method InitializeUser(from: Option<Users.Profile>, now: int) returns (ok: bool)
      requires Valid()
      modifies users, sessions
      ensures Valid()
      ensures (Snapshot(), ok) == Initialized(old(Snapshot()), from, now)
    {
      if from.None? {
        return false;
      }
      var id := from.value.telegramId;
      var isBlocked := users.IsUserBlocked(id);
      if isBlocked {
        return false;
      }
      var user := users.GetOrCreateUser(from.value, now);
      if user.Err? {
        return false;
      }
      var _ := sessions.GetOrCreateSession(id, now);
      users.UpdateUserActivity(id, now);
      ok := true;
    }

    /** `handleStart`. */
    method HandleStart(from: Option<Users.Profile>, now: int)
      requires Valid()
      modifies users, sessions
      ensures Valid()
      ensures Snapshot() == Started(old(Snapshot()), from, now)
    {
      var ok := InitializeUser(from, now);
      if !ok {
        return;
      }
      sessions.ClearSession(from.value.telegramId);
    }

    /** `handlePaymentInitiation`. */
    method HandlePaymentInitiation(from: Option<Users.Profile>, now: int)
      requires Valid()
      modifies users, sessions
      ensures Valid()
      ensures Snapshot() == PaymentInitiated(old(Snapshot()), from, now)
    {
      var ok := InitializeUser(from, now);
      if !ok {
        return;
      }
      sessions.UpdateSessionState(from.value.telegramId, Sessions.AwaitingAmount, Sessions.NoUpdate, now);
    }

    /** `handleWithdrawalInitiation`. */
    method HandleWithdrawalInitiation(from: Option<Users.Profile>, now: int) returns (moved: bool)
      requires Valid()
      modifies users, sessions, balances
      ensures Valid()
      ensures (Snapshot(), moved) == WithdrawalInitiated(old(Snapshot()), from, now)
    {
      var ok := InitializeUser(from, now);
      if !ok {
        return false;
      }
      var id := from.value.telegramId;
      var balance := balances.GetBalance(UserKey(id), now);
      if balance.balance <= 0.0 {
        return false;
      }
      sessions.UpdateSessionState(id, Sessions.AwaitingWithdrawalAmount, Sessions.NoUpdate, now);
      moved := true;
    }

    /** `handleWithdrawalHistory`: the reply, or none when the gate refused. */
    method HandleWithdrawalHistory(from: Option<Users.Profile>, env: Env) returns (reply: Option<string>)
      requires Valid()
      modifies users, sessions
      ensures Valid()
      ensures (Snapshot(), reply) == HistoryShownTo(old(Snapshot()), from, env)
    {
      var ok := InitializeUser(from, env.now);
      if !ok {
        return None;
      }
      var ws := withdrawals.GetWithdrawalHistory(UserKey(from.value.telegramId), env.historyFails);
      var text := HistoryMessage(ws, env);
      reply := Some(text);
    }

    /** `processPayment(ctx, userId)`. */
    method ProcessPayment(from: Option<Users.Profile>, userId: int, env: Env) returns (outcome: ProcessOutcome)
      requires Valid()
      modifies users, sessions
      ensures Valid()
      ensures (Snapshot(), outcome) == PaymentProcessed(old(Snapshot()), from, userId, env)
    {
      var ok := InitializeUser(from, env.now);
      if !ok {
        return Skipped;
      }
      var id := from.value.telegramId;
      var data := sessions.GetSessionData(id);
      var pd := data.value.paymentData;
      if !Truthy(pd.amount) || !Truthy(pd.mobile) {
        sessions.ClearSession(id);
        return InvalidData;
      }
      sessions.UpdateSessionState(id, Sessions.ProcessingPayment, Sessions.NoUpdate, env.now);
      var amount := env.parse(pd.amount.value);
      if amount.None? || amount.value <= 0.0 {
        sessions.ClearSession(id);
        return InvalidAmount;
      }
      var payment := PaymentService.CreatePayment(UserKey(id), env.show(amount.value), pd.mobile.value,
                                                  env.now, env.suffix, env.checkout);
      if payment.Err? {
        sessions.ClearSession(userId);
        return Failed(payment.message);
      }
      users.UpdatePaymentStats(id, amount.value, env.now);
      sessions.ClearSession(id);
      outcome := PaymentCreated(payment.value);
    }

    /** `processWithdrawal(ctx, userId)`. */
    method ProcessWithdrawal(from: Option<Users.Profile>, userId: int, env: Env) returns (outcome: ProcessOutcome)
      requires Valid()
      modifies users, sessions, balances, withdrawals
      ensures Valid()
      ensures (Snapshot(), outcome) == WithdrawalProcessed(old(Snapshot()), from, userId, env)
    {
      var ok := InitializeUser(from, env.now);
      if !ok {
        return Skipped;
      }
      var id := from.value.telegramId;
      var data := sessions.GetSessionData(id);
      var wd := data.value.withdrawalData;
      if !Truthy(wd.amount) || !Truthy(wd.accountName) || !Truthy(wd.accountNumber) || !TruthyInt(wd.bankCode) {
        sessions.ClearSession(id);
        return InvalidData;
      }
      sessions.UpdateSessionState(id, Sessions.ProcessingWithdrawal, Sessions.NoUpdate, env.now);
      outcome := WithdrawDraft(id, userId, wd, env);
    }

    /** The rest of `processWithdrawal`, for a complete draft, once the state is set to processing. */
    method WithdrawDraft(id: int, userId: int, wd: Sessions.WithdrawalDraft, env: Env) returns (outcome: ProcessOutcome)
      requires Valid()
      requires Truthy(wd.amount) && Truthy(wd.accountName) && Truthy(wd.accountNumber) && TruthyInt(wd.bankCode)
      modifies users, sessions, balances, withdrawals
      ensures Valid()
      ensures (Snapshot(), outcome) == WithdrawalOfDraft(old(Snapshot()), old(sessions.sessions), id, userId, wd, env)
    {
      var amount := env.parse(wd.amount.value);
      if amount.None? || amount.value <= 0.0 {
        sessions.ClearSession(id);
        return InvalidAmount;
      }
      var req := WithdrawalRequestFor(id, amount.value, wd);
      var res := withdrawals.InitiateWithdrawal(balances, req, env.now, env.balanceReadFails, env.transfer);
      if res.Err? {
        sessions.ClearSession(userId);
        return Failed(res.message);
      }
      users.UpdateWithdrawalStats(id, amount.value, env.now);
      sessions.ClearSession(id);
      outcome := WithdrawalSubmitted(res.value);
    }

    /** `getBanksForSelection`. */
    method GetBanksForSelection(now: int, fetched: Option<seq<Bank>>) returns (banks: seq<Bank>)
      modifies this
      ensures (Cache(), banks) == BanksFor(old(Cache()), now, fetched)
    {
      if |banksCache| > 0 && now - banksCacheTime < BanksCacheDuration {
        return banksCache;
      }
      if fetched.None? {
        return [];
      }
      banksCache := fetched.value;
      banksCacheTime := now;
      banks := fetched.value;
    }
  }

  /** The history reply, built entry by entry as the `forEach` does. */
  method HistoryMessage(ws: seq<Withdrawals.Withdrawal>, env: Env) returns (msg: string)
    ensures msg == HistoryReply(ws, env)
  {
    if |ws| == 0 {
      return NoHistory;
    }
    var shown := Take(ws, HistoryShown);
    var entries := "";
    var i := 0;
    while i < |shown|
      invariant 0 <= i <= |shown|
      invariant entries == Entries(shown[..i], env)
    {
      var line := Entry(i, shown[i], env);
      EntriesSnoc(shown[..i], shown[i], env);
      PrefixSnoc(shown, i);
      entries := entries + line;
      i := i + 1;
    }
    assert shown[..i] == shown;
    msg := HistoryHeader + entries;
  }

  /** One more withdrawal adds its own entry at the end. */
  lemma EntriesSnoc(ws: seq<Withdrawals.Withdrawal>, w: Withdrawals.Withdrawal, env: Env)
    ensures Entries(ws + [w], env) == Entries(ws, env) + Entry(|ws|, w, env)
  {
    assert (ws + [w])[..|ws|] == ws;
  }
}
