/**
 * The chat front end (server/bot/telegramBot.ts): the text dispatch on the
 * session state, the input validators of the two flows, bank selection and
 * the Yes / No / Cancel buttons.
 *
 * grammy runs the first registered handler that matches an update. The
 * catch-all `message:text` handler is registered before bank selection and
 * the three buttons, so for plain text those never run; the handler that
 * fires is therefore an input, the `Event`, and `Routed` records which one
 * the registration order actually picks.
 *
 * Because `updateState` replaces a draft instead of merging it, each step
 * of a flow forgets what the previous steps stored. `MobileNeverCreatesPayment`
 * and `ChatNeverMovesMoney` prove the consequence: no payment checkout and
 * no withdrawal is ever started from the chat.
 */
module TelegramBot {
  import opened Common
  import opened Balances
  import Users
  import opened Sessions
  import Withdrawals
  import opened BotController

  // ---------------------------------------------------------------- input validators

  /** `^(\+251|0)?[79]\d{8}$`: an optional prefix, then 7 or 9, then eight digits. */
  predicate MobileNumber(t: string)
  {
    || LocalMobile(t)
    || (|t| >= 1 && t[0] == '0' && LocalMobile(t[1..]))
    || (|t| >= 4 && t[..4] == "+251" && LocalMobile(t[4..]))
  }

  /** `[79]\d{8}`. */
  predicate LocalMobile(t: string)
  {
    |t| == 9 && (t[0] == '7' || t[0] == '9') && forall i :: 1 <= i < 9 ==> IsDigit(t[i])
  }

  /** The ASCII characters `\s` matches. */
  predicate IsSpace(c: char)
  {
    c == ' ' || c == '\t' || c == '\n' || c == '\r' || c == '\U{000B}' || c == '\U{000C}'
  }

  /** The number of leading decimal digits of `t`. */
  function LeadingDigits(t: string): (k: nat)
    ensures k <= |t|
    ensures forall i :: 0 <= i < k ==> IsDigit(t[i])
    ensures k < |t| ==> !IsDigit(t[k])
  {
    if t == [] || !IsDigit(t[0]) then 0 else 1 + LeadingDigits(t[1..])
  }

  /** `^\d+\.\s`: the pattern of the bank-selection handler. */
  predicate BankChoiceText(t: string)
  {
    var k := LeadingDigits(t);
    k >= 1 && k + 1 < |t| && t[k] == '.' && IsSpace(t[k + 1])
  }

  /** The value of a string of decimal digits. */
  function DigitsValue(s: string): nat
    requires forall i :: 0 <= i < |s| ==> IsDigit(s[i])
  {
    if s == [] then 0
    else
      assert IsDigit(s[|s| - 1]);
      DigitsValue(s[..|s| - 1]) * 10 + (s[|s| - 1] as int - '0' as int)
  }

  /** `parseInt(text.split('.')[0])`: the number before the first `.` of a matching text. */
  function ChoiceNumber(t: string): nat
  {
    DigitsValue(t[..LeadingDigits(t)])
  }

  /** Some inputs of the mobile pattern, with and without prefix. */
  lemma MobileNumberExamples()
    ensures MobileNumber("0912345678") && MobileNumber("+251912345678") && MobileNumber("712345678")
    ensures !MobileNumber("0812345678") && !MobileNumber("091234567") && !MobileNumber("+2510912345678")
  {
    assert LocalMobile("0912345678"[1..]);
    assert LocalMobile("+251912345678"[4..]);
    assert "+2510912345678"[..4] == "+251";
    assert !LocalMobile("+2510912345678"[4..]);
  }

  /** An accepted number is 9, 10 or 13 characters long and ends in nine digits starting with 7 or 9. */
  lemma MobileNumberShape(t: string)
    requires MobileNumber(t)
    ensures |t| == 9 || |t| == 10 || |t| == 13
    ensures LocalMobile(t[|t| - 9..])
  {
    if LocalMobile(t) {
      assert t[|t| - 9..] == t;
    } else if |t| >= 1 && t[0] == '0' && LocalMobile(t[1..]) {
      assert t[|t| - 9..] == t[1..];
    } else {
      assert t[|t| - 9..] == t[4..];
    }
  }

  /** Digits followed by a non-digit: the leading-digit count is the digits' length. */
  lemma {:induction false} LeadingDigitsOfPrefix(d: string, rest: string)
    requires forall i :: 0 <= i < |d| ==> IsDigit(d[i])
    requires rest == [] || !IsDigit(rest[0])
    ensures LeadingDigits(d + rest) == |d|
  {
    if d != [] {
      assert (d + rest)[1..] == d[1..] + rest;
      LeadingDigitsOfPrefix(d[1..], rest);
    } else {
      assert d + rest == rest;
    }
  }

  /** Reading back a rendered number gives the number. */
  lemma {:induction false} DigitsValueOfRendering(n: nat)
    ensures DigitsValue(NatToString(n)) == n
    decreases n
  {
    var s := NatToString(n);
    if n >= 10 {
      DigitsValueOfRendering(n / 10);
      assert s[..|s| - 1] == NatToString(n / 10);
    }
  }

  // ---------------------------------------------------------------- the bank list

  const BankListHeader: string := "🏦 Select your bank:\n\n"

  /** The line of the bank list for the bank at position `index`. */
  function BankLine(index: nat, b: Bank): string
  {
    NatToString(index + 1) + ". " + b.name + "\n"
  }

  function BankLines(banks: seq<Bank>): string
  {
    if banks == [] then "" else BankLines(banks[..|banks| - 1]) + BankLine(|banks| - 1, banks[|banks| - 1])
  }

  /** The reply listing the banks, numbered from 1. */
  function BankListReply(banks: seq<Bank>): string
  {
    BankListHeader + BankLines(banks)
  }

  /**
   * Sending back the line with which the list shows the bank at position
   * `i` matches the bank-selection pattern and selects position `i`.
   */
  lemma ListedLineSelectsBank(banks: seq<Bank>, i: nat)
    requires i < |banks|
    ensures var line := BankLine(i, banks[i]);
      BankChoiceText(line) && ChoiceNumber(line) - 1 == i
  {
    var d := NatToString(i + 1);
    var rest := ". " + banks[i].name + "\n";
    var line := BankLine(i, banks[i]);
    assert line == d + rest;
    LeadingDigitsOfPrefix(d, rest);
    assert line[..|d|] == d;
    DigitsValueOfRendering(i + 1);
  }

  /** One more bank adds its own line at the end. */
  lemma BankLinesSnoc(banks: seq<Bank>, b: Bank)
    ensures BankLines(banks + [b]) == BankLines(banks) + BankLine(|banks|, b)
  {
    assert (banks + [b])[..|banks|] == banks;
  }

  /** The bank list, built line by line as the `forEach` does. */
  method BankListMessage(banks: seq<Bank>) returns (msg: string)
    ensures msg == BankListReply(banks)
  {
    var lines := "";
    var i := 0;
    while i < |banks|
      invariant 0 <= i <= |banks|
      invariant lines == BankLines(banks[..i])
    {
      var line := BankLine(i, banks[i]);
      BankLinesSnoc(banks[..i], banks[i]);
      PrefixSnoc(banks, i);
      lines := lines + line;
      i := i + 1;
    }
    assert banks[..i] == banks;
    msg := BankListHeader + lines;
  }

  // ---------------------------------------------------------------- input handlers

  /** The update written into the session by a handler that stores one draft. */
  function PaymentStep(d: PaymentDraft): SessionUpdate
  {
    SessionUpdate(Some(d), None, None)
  }

  function WithdrawalStep(d: WithdrawalDraft): SessionUpdate
  {
    SessionUpdate(None, Some(d), None)
  }

  /** `handlePaymentAmount`: a positive amount is stored as `{ amount: text }` and the mobile is asked for. */
  function PaymentAmountEntered(w: World, id: int, text: string, env: Env): (r: World)
    requires WorldValid(w)
    ensures WorldValid(r)
  {
    var x := env.parse(text);
    if x.None? || x.value <= 0.0 then w
    else w.(sessions := UpdateIn(w.sessions, id, AwaitingMobile, PaymentStep(PaymentDraft(Some(text), None, None)), env.now))
  }

  /**
   * `handlePaymentMobile`: a number matching the pattern is stored as
   * `{ mobile: text }` with state `processing_payment`, then `processPayment`
   * runs; the outcome is `None` when the number was refused.
   */
  function MobileEntered(w: World, from: Users.Profile, text: string, env: Env): (r: (World, Option<ProcessOutcome>))
    requires WorldValid(w)
    ensures WorldValid(r.0)
  {
    if !MobileNumber(text) then (w, None)
    else
      var id := from.telegramId;
      var w1 := w.(sessions := UpdateIn(w.sessions, id, ProcessingPayment, PaymentStep(PaymentDraft(None, Some(text), None)), env.now));
      var (w2, o) := PaymentProcessed(w1, Some(from), id, env);
      (w2, Some(o))
  }

  /** The balance check of `handleWithdrawalAmount`, as evidently intended: the amount against the record's balance. */
  predicate ExceedsBalance(amount: real, record: Balance)
  {
    amount > record.balance
  }

  /**
   * The balance check of `handleWithdrawalAmount` as written: `amount >
   * balance` compares the number with the Balance document itself, which
   * converts to NaN, so the comparison is false whatever the amount.
   */
  predicate ExceedsBalanceAsWritten(amount: real, record: Balance)
  {
    false
  }

  /**
   * `handleWithdrawalAmount` with the balance check `exceeds`: a positive
   * amount within the balance of `user-<id>` is stored as `{ amount: text }`
   * and the account name is asked for. Reading the balance creates a zero
   * record when there is none.
   */
  function WithdrawalAmountWith(w: World, id: int, text: string, env: Env, exceeds: (real, Balance) -> bool): (r: World)
    requires WorldValid(w)
    ensures WorldValid(r)
  {
    var x := env.parse(text);
    if x.None? || x.value <= 0.0 then w
    else
      var (l1, b) := Balances.GetOrCreate(w.ledger, UserKey(id), env.now);
      if exceeds(x.value, b) then w.(ledger := l1)
      else w.(ledger := l1, sessions := UpdateIn(w.sessions, id, AwaitingAccountName,
                                                 WithdrawalStep(WithdrawalDraft(Some(text), None, None, None, None)), env.now))
  }

  /** `handleWithdrawalAmount` with the intended check; the rest of the model uses this one. */
  function WithdrawalAmountEntered(w: World, id: int, text: string, env: Env): (r: World)
    requires WorldValid(w)
    ensures WorldValid(r)
  {
    WithdrawalAmountWith(w, id, text, env, ExceedsBalance)
  }

  /** `handleWithdrawalAmount` as written. */
  function WithdrawalAmountEnteredAsWritten(w: World, id: int, text: string, env: Env): (r: World)
    requires WorldValid(w)
    ensures WorldValid(r)
  {
    WithdrawalAmountWith(w, id, text, env, ExceedsBalanceAsWritten)
  }

  /** `handleAccountName`: a `length` of at least 2, stored as `{ accountName: text }`. */
  function AccountNameEntered(w: World, id: int, text: string, now: int): (r: World)
    requires WorldValid(w)
    ensures WorldValid(r)
  {
    if Utf16Length(text) < 2 then w
    else w.(sessions := UpdateIn(w.sessions, id, AwaitingAccountNumber,
                                 WithdrawalStep(WithdrawalDraft(None, Some(text), None, None, None)), now))
  }

  /**
   * `handleAccountNumber`: a `length` of 10 to 16, stored as `{ accountNumber:
   * text }`; then the bank list is fetched (through the cache) and sent.
   */
  function AccountNumberEntered(w: World, c: BankCache, id: int, text: string, env: Env): (r: (World, BankCache, Option<string>))
    requires WorldValid(w)
    ensures WorldValid(r.0)
  {
    if Utf16Length(text) < 10 || Utf16Length(text) > 16 then (w, c, None)
    else
      var s1 := UpdateIn(w.sessions, id, AwaitingBankChoice,
                         WithdrawalStep(WithdrawalDraft(None, None, Some(text), None, None)), env.now);
      var (c1, banks) := BanksFor(c, env.now, env.fetchedBanks);
      (w.(sessions := s1), c1, Some(BankListReply(banks)))
  }

  /** `ctx.from?.id` is missing or 0. */
  predicate NoSender(from: Option<Users.Profile>)
  {
    from.None? || from.value.telegramId == 0
  }

  /**
   * The catch-all `message:text` handler: dispatch on the stored state.
   * `exceeds` is the balance check of the withdrawal amount step: the
   * handlers use `ExceedsBalance`, the code as written `ExceedsBalanceAsWritten`.
   */
  function TextReceived(w: World, c: BankCache, from: Option<Users.Profile>, text: string, env: Env,
                        exceeds: (real, Balance) -> bool): (r: (World, BankCache))
    requires WorldValid(w)
    ensures WorldValid(r.0)
  {
    if NoSender(from) then (w, c)
    else
      var id := from.value.telegramId;
      if id !in w.sessions then (w, c)
      else match w.sessions[id].state
        case AwaitingAmount => (PaymentAmountEntered(w, id, text, env), c)
        case AwaitingMobile => (MobileEntered(w, from.value, text, env).0, c)
        case AwaitingWithdrawalAmount => (WithdrawalAmountWith(w, id, text, env, exceeds), c)
        case AwaitingAccountName => (AccountNameEntered(w, id, text, env.now), c)
        case AwaitingAccountNumber =>
          var (w1, c1, _) := AccountNumberEntered(w, c, id, text, env);
          (w1, c1)
        case _ => (w, c)
  }

  /**
   * The bank-selection handler: only in `awaiting_bank_choice`; the number
   * before the dot picks a bank of the (cached) list; a picked bank is
   * stored as `{ bankCode, bankName }` with state `awaiting_account_name`,
   * then the state becomes `awaiting_bank_confirmation`.
   */
  function BankChosen(w: World, c: BankCache, from: Option<Users.Profile>, text: string, env: Env): (r: (World, BankCache))
    requires WorldValid(w)
    ensures WorldValid(r.0)
  {
    if NoSender(from) then (w, c)
    else
      var id := from.value.telegramId;
      if id !in w.sessions || w.sessions[id].state != AwaitingBankChoice || text == "" then (w, c)
      else
        var index := ChoiceNumber(text) - 1;
        var (c1, banks) := BanksFor(c, env.now, env.fetchedBanks);
        if 0 <= index < |banks| then
          var bank := banks[index];
          var s1 := UpdateIn(w.sessions, id, AwaitingAccountName,
                             WithdrawalStep(WithdrawalDraft(None, None, None, Some(bank.id), Some(bank.name))), env.now);
          (w.(sessions := UpdateIn(s1, id, AwaitingBankConfirmation, NoUpdate, env.now)), c1)
        else (w, c1)
  }

  /** "Yes": `processWithdrawal`, only in `awaiting_bank_confirmation`. */
  function YesPressed(w: World, from: Option<Users.Profile>, env: Env): (r: World)
    requires WorldValid(w)
    ensures WorldValid(r)
  {
    if NoSender(from) then w
    else
      var id := from.value.telegramId;
      if id in w.sessions && w.sessions[id].state == AwaitingBankConfirmation then WithdrawalProcessed(w, from, id, env).0
      else w
  }

  /** "No": the session is cleared, only in `awaiting_bank_confirmation`. */
  function NoPressed(w: World, from: Option<Users.Profile>): (r: World)
    requires WorldValid(w)
    ensures WorldValid(r)
  {
    if NoSender(from) then w
    else
      var id := from.value.telegramId;
      if id in w.sessions && w.sessions[id].state == AwaitingBankConfirmation then w.(sessions := ClearIn(w.sessions, id))
      else w
  }

  /** "❌ Cancel": the session is cleared whatever its state. */
  function CancelPressed(w: World, from: Option<Users.Profile>): (r: World)
    requires WorldValid(w)
    ensures WorldValid(r)
  {
    if NoSender(from) then w else w.(sessions := ClearIn(w.sessions, from.value.telegramId))
  }

  // ---------------------------------------------------------------- dispatch

  /** The handler an update reaches. */
  datatype Event =
    | StartCommand
    | MakePayment
    | WithdrawFunds
    | WithdrawalHistory
    | TextMessage(text: string)
    | BankChoiceMessage(text: string)
    | YesButton
    | NoButton
    | CancelButton

  /** One update, given the handler it reaches. The bank-selection handler only fires for a matching text. */
  function Dispatch(w: World, c: BankCache, from: Option<Users.Profile>, ev: Event, env: Env,
                    exceeds: (real, Balance) -> bool): (r: (World, BankCache))
    requires WorldValid(w)
    ensures WorldValid(r.0)
  {
    match ev
      case StartCommand => (Started(w, from, env.now), c)
      case MakePayment => (PaymentInitiated(w, from, env.now), c)
      case WithdrawFunds => (WithdrawalInitiated(w, from, env.now).0, c)
      case WithdrawalHistory => (HistoryShownTo(w, from, env).0, c)
      case TextMessage(text) => TextReceived(w, c, from, text, env, exceeds)
      case BankChoiceMessage(text) => if BankChoiceText(text) then BankChosen(w, c, from, text, env) else (w, c)
      case YesButton => (YesPressed(w, from, env), c)
      case NoButton => (NoPressed(w, from), c)
      case CancelButton => (CancelPressed(w, from), c)
  }

  /** A character that continues a command: a letter, a digit, `_`, or the `@` before a bot name. */
  predicate CommandChar(c: char)
  {
    'a' <= c <= 'z' || 'A' <= c <= 'Z' || IsDigit(c) || c == '_' || c == '@'
  }

  /** `text` opens with `head`, and the command ends there. */
  predicate OpensWith(text: string, head: string)
  {
    |head| <= |text| && text[..|head|] == head && (|text| == |head| || !CommandChar(text[|head|]))
  }

  /**
   * grammy's `bot.command(name)` on a text message: `/name` or
   * `/name@<the bot's username>`, alone or followed by a payload.
   */
  predicate IsCommand(text: string, name: string, botName: string)
  {
    OpensWith(text, "/" + name) || OpensWith(text, "/" + name + "@" + botName)
  }

  /**
   * The handler grammy picks for a text message to the bot `botName`, in
   * registration order: `/start`, `/admin`, then the menu buttons (matched
   * exactly), then the catch-all text handler. `None` for the handlers this
   * model leaves out (balance, statistics, help, admin).
   */
  function Routed(text: string, botName: string): Option<Event>
  {
    if IsCommand(text, "start", botName) then Some(StartCommand)
    else if IsCommand(text, "admin", botName) || text == "💳 Check Balance" || text == "📊 My Statistics" || text == "❓ Help"
         || text == "📊 System Stats" || text == "👥 Active Users" || text == "🔧 Maintenance" || text == "🏠 Main Menu"
    then None
    else if text == "💰 Make Payment" then Some(MakePayment)
    else if text == "🏦 Withdraw Funds" then Some(WithdrawFunds)
    else if text == "📋 Withdrawal History" then Some(WithdrawalHistory)
    else Some(TextMessage(text))
  }

  /** Registered after the catch-all, bank selection and the three buttons are never reached by a text message. */
  lemma LaterHandlersShadowed(text: string, botName: string)
    ensures Routed(text, botName).Some? ==>
      !Routed(text, botName).value.BankChoiceMessage? && !Routed(text, botName).value.YesButton?
      && !Routed(text, botName).value.NoButton? && !Routed(text, botName).value.CancelButton?
    ensures text == "Yes" ==> Routed(text, botName) == Some(TextMessage("Yes"))
  {
    if text == "Yes" {
      assert text[..1] == "Y";
    }
  }

  /** `/start` is routed to its handler exactly when the text is that command. */
  lemma StartRouting(text: string, botName: string)
    ensures Routed(text, botName) == Some(StartCommand) <==> IsCommand(text, "start", botName)
  {
  }

  /**
   * `/start` runs for the bare command, for the command with a payload and
   * for the command addressed to this bot; a longer word such as `/starts`
   * is plain text.
   */
  lemma StartRoutingExamples(botName: string)
    ensures Routed("/start", botName) == Some(StartCommand)
    ensures Routed("/start ref42", botName) == Some(StartCommand)
    ensures Routed("/start@" + botName, botName) == Some(StartCommand)
    ensures Routed("/starts", botName) == Some(TextMessage("/starts"))
  {
    assert OpensWith("/start", "/start");
    assert ("/start ref42")[..6] == "/start" && ("/start ref42")[6] == ' ';
    assert OpensWith("/start ref42", "/start");
    var addressed := "/start@" + botName;
    assert addressed[..|addressed|] == addressed;
    assert OpensWith(addressed, "/start" + "@" + botName);
    var word := "/starts";
    assert word[6] == 's' && CommandChar(word[6]);
    assert !OpensWith(word, "/start");
    assert !OpensWith(word, "/start" + "@" + botName) by {
      if |"/start" + "@" + botName| <= |word| {
        assert ("/start" + "@" + botName)[6] == '@' != word[6];
      }
    }
    assert !OpensWith(word, "/admin") && !OpensWith(word, "/admin" + "@" + botName) by {
      assert word[1] == 's' != 'a' == ("/admin" + "@" + botName)[1] == "/admin"[1];
    }
  }

  // ---------------------------------------------------------------- properties of the handlers

  /** The text handler does nothing without a sender or a session, or outside the five input states. */
  lemma TextIgnoredOutsideInputStates(w: World, c: BankCache, from: Option<Users.Profile>, text: string, env: Env,
                                      exceeds: (real, Balance) -> bool)
    requires WorldValid(w)
    requires NoSender(from) || from.value.telegramId !in w.sessions
             || w.sessions[from.value.telegramId].state !in
                  {AwaitingAmount, AwaitingMobile, AwaitingWithdrawalAmount, AwaitingAccountName, AwaitingAccountNumber}
    ensures TextReceived(w, c, from, text, env, exceeds) == (w, c)
  {
  }

  /**
   * An amount that is NaN or not positive leaves everything as it was; a
   * positive one moves to `awaiting_mobile` with exactly `{ amount: text }`
   * as payment draft.
   */
  lemma PaymentAmountContract(w: World, id: int, text: string, env: Env)
    requires WorldValid(w)
    ensures var w' := PaymentAmountEntered(w, id, text, env);
      && (env.parse(text).None? || env.parse(text).value <= 0.0 ==> w' == w)
      && (env.parse(text).Some? && env.parse(text).value > 0.0 ==>
            && w'.sessions[id].state == AwaitingMobile && w'.sessions[id].isActive
            && w'.sessions[id].paymentData == PaymentDraft(Some(text), None, None))
      && w'.users == w.users && w'.ledger == w.ledger && w'.book == w.book
  {
    UpdateSessionStateContract(w.sessions, id, AwaitingMobile, PaymentStep(PaymentDraft(Some(text), None, None)), env.now);
  }

  /**
   * A withdrawal amount that is NaN or not positive changes nothing; one
   * above the balance of `user-<id>` leaves the session as it was; any other
   * moves to `awaiting_account_name` with exactly `{ amount: text }` as
   * withdrawal draft. No balance amount changes.
   */
  lemma WithdrawalAmountContract(w: World, id: int, text: string, env: Env)
    requires WorldValid(w)
    ensures var w' := WithdrawalAmountEntered(w, id, text, env); var x := env.parse(text);
      && (x.None? || x.value <= 0.0 ==> w' == w)
      && (x.Some? && x.value > AmountOf(w.ledger, UserKey(id)) ==> w'.sessions == w.sessions)
      && (x.Some? && 0.0 < x.value <= AmountOf(w.ledger, UserKey(id)) ==>
            && w'.sessions[id].state == AwaitingAccountName
            && w'.sessions[id].withdrawalData == WithdrawalDraft(Some(text), None, None, None, None))
      && (forall u :: AmountOf(w'.ledger, u) == AmountOf(w.ledger, u))
      && w'.users == w.users && w'.book == w.book
  {
    Balances.GetOrCreateContract(w.ledger, UserKey(id), env.now);
    Balances.GetOrCreateKeepsAmounts(w.ledger, UserKey(id), env.now);
    UpdateSessionStateContract(w.sessions, id, AwaitingAccountName,
                               WithdrawalStep(WithdrawalDraft(Some(text), None, None, None, None)), env.now);
  }

  /**
   * The check as written lets every positive amount through: with a
   * balance below the amount (for instance none at all and "100") the
   * as-written handler asks for the account name, while the intended check
   * keeps the session where it was.
   */
  lemma AsWrittenAcceptsAmountAboveBalance(w: World, id: int, text: string, env: Env, x: real)
    requires WorldValid(w) && env.parse(text) == Some(x) && x > 0.0 && x > AmountOf(w.ledger, UserKey(id))
    ensures WithdrawalAmountEnteredAsWritten(w, id, text, env).sessions[id].state == AwaitingAccountName
    ensures WithdrawalAmountEntered(w, id, text, env).sessions == w.sessions
  {
    Balances.GetOrCreateContract(w.ledger, UserKey(id), env.now);
    Balances.GetOrCreateKeepsAmounts(w.ledger, UserKey(id), env.now);
    UpdateSessionStateContract(w.sessions, id, AwaitingAccountName,
                               WithdrawalStep(WithdrawalDraft(Some(text), None, None, None, None)), env.now);
  }

  /**
   * An account name shorter than 2 UTF-16 code units, or an account number
   * outside 10 to 16 of them, changes nothing; otherwise the flow moves on
   * with exactly that one field in the withdrawal draft.
   */
  lemma AccountDetailsContract(w: World, c: BankCache, id: int, text: string, env: Env)
    requires WorldValid(w)
    ensures var w' := AccountNameEntered(w, id, text, env.now);
      && (Utf16Length(text) < 2 ==> w' == w)
      && (Utf16Length(text) >= 2 ==>
            && w'.sessions[id].state == AwaitingAccountNumber
            && w'.sessions[id].withdrawalData == WithdrawalDraft(None, Some(text), None, None, None))
    ensures var (w', c', reply) := AccountNumberEntered(w, c, id, text, env);
      && (Utf16Length(text) < 10 || Utf16Length(text) > 16 ==> w' == w && c' == c && reply.None?)
      && (10 <= Utf16Length(text) <= 16 ==>
            && w'.sessions[id].state == AwaitingBankChoice
            && w'.sessions[id].withdrawalData == WithdrawalDraft(None, None, Some(text), None, None)
            && reply == Some(BankListReply(BanksFor(c, env.now, env.fetchedBanks).1)))
  {
    UpdateSessionStateContract(w.sessions, id, AwaitingAccountNumber,
                               WithdrawalStep(WithdrawalDraft(None, Some(text), None, None, None)), env.now);
    UpdateSessionStateContract(w.sessions, id, AwaitingBankChoice,
                               WithdrawalStep(WithdrawalDraft(None, None, Some(text), None, None)), env.now);
  }

  /**
   * Bank selection acts only in `awaiting_bank_choice`, and accepts exactly
   * a number from 1 to the length of the list; an accepted choice ends in
   * `awaiting_bank_confirmation` with a withdrawal draft holding only that
   * bank's id and name.
   */
  lemma BankChoiceContract(w: World, c: BankCache, from: Option<Users.Profile>, text: string, env: Env)
    requires WorldValid(w) && !NoSender(from) && text != ""
    ensures var id := from.value.telegramId; var (w', c') := BankChosen(w, c, from, text, env);
      var banks := BanksFor(c, env.now, env.fetchedBanks).1;
      && (id !in w.sessions || w.sessions[id].state != AwaitingBankChoice ==> (w', c') == (w, c))
      && (id in w.sessions && w.sessions[id].state == AwaitingBankChoice ==>
            && c' == BanksFor(c, env.now, env.fetchedBanks).0
            && (w' != w <==> 1 <= ChoiceNumber(text) <= |banks|)
            && (1 <= ChoiceNumber(text) <= |banks| ==>
                  var bank := banks[ChoiceNumber(text) - 1];
                  && w'.sessions[id].state == AwaitingBankConfirmation
                  && w'.sessions[id].withdrawalData == WithdrawalDraft(None, None, None, Some(bank.id), Some(bank.name))))
      && w'.users == w.users && w'.ledger == w.ledger && w'.book == w.book
  {
    var id := from.value.telegramId;
    if id in w.sessions && w.sessions[id].state == AwaitingBankChoice {
      var banks := BanksFor(c, env.now, env.fetchedBanks).1;
      var n := ChoiceNumber(text);
      if 1 <= n <= |banks| {
        var bank := banks[n - 1];
        var data := WithdrawalStep(WithdrawalDraft(None, None, None, Some(bank.id), Some(bank.name)));
        UpdateSessionStateContract(w.sessions, id, AwaitingAccountName, data, env.now);
        var s1 := UpdateIn(w.sessions, id, AwaitingAccountName, data, env.now);
        UpdateSessionStateContract(s1, id, AwaitingBankConfirmation, NoUpdate, env.now);
        assert w.sessions[id].state != s1[id].state;
      }
    }
  }

  /**
   * "Yes" and "No" act only in `awaiting_bank_confirmation`; "No" and
   * "❌ Cancel" leave the sender's session cleared.
   */
  lemma ButtonsContract(w: World, from: Option<Users.Profile>, env: Env)
    requires WorldValid(w) && !NoSender(from)
    ensures var id := from.value.telegramId;
      && (id !in w.sessions || w.sessions[id].state != AwaitingBankConfirmation ==>
            YesPressed(w, from, env) == w && NoPressed(w, from) == w)
      && (id in w.sessions && w.sessions[id].state == AwaitingBankConfirmation ==>
            ClearedFor(NoPressed(w, from).sessions, id))
      && (id in w.sessions ==> ClearedFor(CancelPressed(w, from).sessions, id))
      && (id !in w.sessions ==> CancelPressed(w, from) == w)
  {
  }

  // ---------------------------------------------------------------- what the replace semantics implies

  /**
   * The payment flow never reaches the payment provider: the mobile step
   * replaces the draft by `{ mobile }`, so `processPayment` finds no amount,
   * clears the session and creates nothing.
   */
  lemma MobileNeverCreatesPayment(w: World, from: Users.Profile, text: string, env: Env)
    requires WorldValid(w)
    ensures var (w', o) := MobileEntered(w, from, text, env);
      && (o.None? <==> !MobileNumber(text))
      && (o.Some? ==> o.value == Skipped || o.value == InvalidData)
      && (o == Some(InvalidData) ==> ClearedFor(w'.sessions, from.telegramId))
      && w'.ledger == w.ledger && w'.book == w.book
  {
    if MobileNumber(text) {
      var id := from.telegramId;
      var data := PaymentStep(PaymentDraft(None, Some(text), None));
      UpdateSessionStateContract(w.sessions, id, ProcessingPayment, data, env.now);
      var w1 := w.(sessions := UpdateIn(w.sessions, id, ProcessingPayment, data, env.now));
      GateKeepsDrafts(w1, Some(from), env.now);
      PaymentProcessedContract(w1, Some(from), env);
    }
  }

  /** The gate leaves every session's state and drafts as they were. */
  lemma GateKeepsDrafts(w: World, from: Option<Users.Profile>, now: int)
    requires WorldValid(w)
    ensures var (w', _) := Initialized(w, from, now);
      && w'.sessions.Keys >= w.sessions.Keys
      && (forall id :: id in w.sessions ==>
            && w'.sessions[id].state == w.sessions[id].state
            && w'.sessions[id].paymentData == w.sessions[id].paymentData
            && w'.sessions[id].withdrawalData == w.sessions[id].withdrawalData)
      && (forall id :: id in w'.sessions && id !in w.sessions ==> w'.sessions[id] == NewSession(id, now))
      && w'.ledger == w.ledger && w'.book == w.book
  {
    GateContract(w, from, now);
    if from.Some? {
      Sessions.GetOrCreateContract(w.sessions, from.value.telegramId, now);
    }
  }

  /** No session waits for a confirmation with a withdrawal amount in its draft. */
  predicate NothingToConfirm(m: SessionMap)
  {
    forall id :: id in m && m[id].state == AwaitingBankConfirmation ==> m[id].withdrawalData.amount.None?
  }

  /** `updateSessionState` keeps `NothingToConfirm` unless it confirms a draft with an amount. */
  lemma UpdateKeepsNothingToConfirm(m: SessionMap, id: int, st: State, data: SessionUpdate, now: int)
    requires MapValid(m) && NothingToConfirm(m)
    requires st == AwaitingBankConfirmation ==>
      if data.withdrawalData.Some? then data.withdrawalData.value.amount.None?
      else id in m && m[id].withdrawalData.amount.None?
    ensures NothingToConfirm(UpdateIn(m, id, st, data, now))
  {
    UpdateSessionStateContract(m, id, st, data, now);
  }

  /** The ledger's amounts: reading a balance only ever adds zero records. */
  ghost predicate SameAmounts(l: Ledger, l': Ledger)
  {
    forall u :: AmountOf(l', u) == AmountOf(l, u)
  }

  /** The gate keeps `NothingToConfirm` and touches neither ledger nor withdrawals. */
  lemma GateKeepsNothingToConfirm(w: World, from: Option<Users.Profile>, now: int)
    requires WorldValid(w) && NothingToConfirm(w.sessions)
    ensures var (w', _) := Initialized(w, from, now);
      NothingToConfirm(w'.sessions) && w'.ledger == w.ledger && w'.book == w.book
  {
    GateKeepsDrafts(w, from, now);
    var (w', _) := Initialized(w, from, now);
    forall id | id in w'.sessions && w'.sessions[id].state == AwaitingBankConfirmation
      ensures w'.sessions[id].withdrawalData.amount.None?
    {
      NewSessionDefaults(id, now);
    }
  }

  /** `processPayment` keeps `NothingToConfirm` and touches neither ledger nor withdrawals. */
  lemma PaymentKeepsNothingToConfirm(w: World, from: Option<Users.Profile>, userId: int, env: Env)
    requires WorldValid(w) && NothingToConfirm(w.sessions)
    ensures var (w', _) := PaymentProcessed(w, from, userId, env);
      NothingToConfirm(w'.sessions) && w'.ledger == w.ledger && w'.book == w.book
  {
    GateKeepsNothingToConfirm(w, from, env.now);
    var (w1, ok) := Initialized(w, from, env.now);
    if ok {
      PaymentAfterGateKeepsNothingToConfirm(w1, from.value.telegramId, userId, env);
    }
  }

  /** Past the gate, `processPayment` keeps `NothingToConfirm` and touches neither ledger nor withdrawals. */
  lemma PaymentAfterGateKeepsNothingToConfirm(w1: World, id: int, userId: int, env: Env)
    requires WorldValid(w1) && id in w1.sessions && NothingToConfirm(w1.sessions)
    ensures var (w', _) := PaymentAfterGate(w1, id, userId, env);
      NothingToConfirm(w'.sessions) && w'.ledger == w1.ledger && w'.book == w1.book
  {
    ClearKeepsNothingToConfirm(w1.sessions, id);
    var pd := w1.sessions[id].paymentData;
    if Truthy(pd.amount) && Truthy(pd.mobile) {
      UpdateKeepsNothingToConfirm(w1.sessions, id, ProcessingPayment, NoUpdate, env.now);
      var s2 := UpdateIn(w1.sessions, id, ProcessingPayment, NoUpdate, env.now);
      PaymentOfDraftKeepsNothingToConfirm(w1, s2, id, userId, pd, env);
    }
  }

  /** For a complete draft, the rest of `processPayment` keeps `NothingToConfirm` and touches neither ledger nor withdrawals. */
  lemma PaymentOfDraftKeepsNothingToConfirm(w1: World, s2: SessionMap, id: int, userId: int, pd: PaymentDraft, env: Env)
    requires WorldValid(w1) && MapValid(s2) && NothingToConfirm(s2)
    requires Truthy(pd.amount) && Truthy(pd.mobile)
    ensures var (w', _) := PaymentOfDraft(w1, s2, id, userId, pd, env);
      NothingToConfirm(w'.sessions) && w'.ledger == w1.ledger && w'.book == w1.book
  {
    ClearKeepsNothingToConfirm(s2, id);
    ClearKeepsNothingToConfirm(s2, userId);
  }

  /** `clearSession` keeps `NothingToConfirm`. */
  lemma ClearKeepsNothingToConfirm(m: SessionMap, id: int)
    requires MapValid(m) && NothingToConfirm(m)
    ensures NothingToConfirm(ClearIn(m, id))
  {
  }

  /**
   * "Yes" with nothing to confirm: `processWithdrawal` finds no amount in
   * the draft, so it submits nothing and moves no money.
   */
  lemma YesSubmitsNothing(w: World, from: Option<Users.Profile>, env: Env)
    requires WorldValid(w) && NothingToConfirm(w.sessions)
    ensures var w' := YesPressed(w, from, env);
      NothingToConfirm(w'.sessions) && w'.ledger == w.ledger && w'.book == w.book
  {
    if !NoSender(from) {
      var id := from.value.telegramId;
      if id in w.sessions && w.sessions[id].state == AwaitingBankConfirmation {
        GateKeepsDrafts(w, from, env.now);
        GateKeepsNothingToConfirm(w, from, env.now);
        WithdrawalProcessedContract(w, from, env);
        var (w1, ok) := Initialized(w, from, env.now);
        if ok {
          ClearKeepsNothingToConfirm(w1.sessions, id);
        }
      }
    }
  }

  /**
   * Whatever the balance check, the withdrawal amount step keeps
   * `NothingToConfirm`, touches no withdrawal and changes no balance amount:
   * it only ever stores `{ amount: text }` while awaiting the account name.
   */
  lemma AnyAmountCheckKeepsNothingToConfirm(w: World, id: int, text: string, env: Env, exceeds: (real, Balance) -> bool)
    requires WorldValid(w) && NothingToConfirm(w.sessions)
    ensures var w' := WithdrawalAmountWith(w, id, text, env, exceeds);
      NothingToConfirm(w'.sessions) && w'.book == w.book && SameAmounts(w.ledger, w'.ledger)
  {
    Balances.GetOrCreateKeepsAmounts(w.ledger, UserKey(id), env.now);
    UpdateKeepsNothingToConfirm(w.sessions, id, AwaitingAccountName,
                                WithdrawalStep(WithdrawalDraft(Some(text), None, None, None, None)), env.now);
  }

  /** The text handler keeps `NothingToConfirm`, touches no withdrawal and changes no balance amount. */
  lemma TextKeepsNothingToConfirm(w: World, c: BankCache, from: Option<Users.Profile>, text: string, env: Env,
                                  exceeds: (real, Balance) -> bool)
    requires WorldValid(w) && NothingToConfirm(w.sessions)
    ensures var (w', _) := TextReceived(w, c, from, text, env, exceeds);
      NothingToConfirm(w'.sessions) && w'.book == w.book && SameAmounts(w.ledger, w'.ledger)
  {
    if !NoSender(from) && from.value.telegramId in w.sessions {
      var id := from.value.telegramId;
      match w.sessions[id].state
      case AwaitingAmount =>
        UpdateKeepsNothingToConfirm(w.sessions, id, AwaitingMobile, PaymentStep(PaymentDraft(Some(text), None, None)), env.now);
      case AwaitingMobile =>
        if MobileNumber(text) {
          var data := PaymentStep(PaymentDraft(None, Some(text), None));
          UpdateKeepsNothingToConfirm(w.sessions, id, ProcessingPayment, data, env.now);
          var w1 := w.(sessions := UpdateIn(w.sessions, id, ProcessingPayment, data, env.now));
          PaymentKeepsNothingToConfirm(w1, from, id, env);
        }
      case AwaitingWithdrawalAmount =>
        AnyAmountCheckKeepsNothingToConfirm(w, id, text, env, exceeds);
      case AwaitingAccountName =>
        UpdateKeepsNothingToConfirm(w.sessions, id, AwaitingAccountNumber,
                                    WithdrawalStep(WithdrawalDraft(None, Some(text), None, None, None)), env.now);
      case AwaitingAccountNumber =>
        UpdateKeepsNothingToConfirm(w.sessions, id, AwaitingBankChoice,
                                    WithdrawalStep(WithdrawalDraft(None, None, Some(text), None, None)), env.now);
      case _ =>
    }
  }

  /** Bank selection keeps `NothingToConfirm`: the draft it confirms holds only the bank. */
  lemma BankChoiceKeepsNothingToConfirm(w: World, c: BankCache, from: Option<Users.Profile>, text: string, env: Env)
    requires WorldValid(w) && NothingToConfirm(w.sessions)
    ensures var (w', _) := BankChosen(w, c, from, text, env);
      NothingToConfirm(w'.sessions) && w'.ledger == w.ledger && w'.book == w.book
  {
    if !NoSender(from) {
      var id := from.value.telegramId;
      if id in w.sessions && w.sessions[id].state == AwaitingBankChoice && text != "" {
        var banks := BanksFor(c, env.now, env.fetchedBanks).1;
        var index := ChoiceNumber(text) - 1;
        if 0 <= index < |banks| {
          var bank := banks[index];
          var data := WithdrawalStep(WithdrawalDraft(None, None, None, Some(bank.id), Some(bank.name)));
          UpdateKeepsNothingToConfirm(w.sessions, id, AwaitingAccountName, data, env.now);
          UpdateSessionStateContract(w.sessions, id, AwaitingAccountName, data, env.now);
          var s1 := UpdateIn(w.sessions, id, AwaitingAccountName, data, env.now);
          UpdateKeepsNothingToConfirm(s1, id, AwaitingBankConfirmation, NoUpdate, env.now);
        }
      }
    }
  }

  /** The menu handlers keep `NothingToConfirm`, touch no withdrawal and change no balance amount. */
  lemma MenuKeepsNothingToConfirm(w: World, from: Option<Users.Profile>, env: Env)
    requires WorldValid(w) && NothingToConfirm(w.sessions)
    ensures var w' := Started(w, from, env.now);
      NothingToConfirm(w'.sessions) && w'.book == w.book && w'.ledger == w.ledger
    ensures var w' := PaymentInitiated(w, from, env.now);
      NothingToConfirm(w'.sessions) && w'.book == w.book && w'.ledger == w.ledger
    ensures var (w', _) := HistoryShownTo(w, from, env);
      NothingToConfirm(w'.sessions) && w'.book == w.book && w'.ledger == w.ledger
  {
    GateKeepsNothingToConfirm(w, from, env.now);
    var (w1, ok) := Initialized(w, from, env.now);
    if ok {
      var id := from.value.telegramId;
      ClearKeepsNothingToConfirm(w1.sessions, id);
      UpdateKeepsNothingToConfirm(w1.sessions, id, AwaitingAmount, NoUpdate, env.now);
    }
  }

  /** "💸 Withdraw Funds" keeps `NothingToConfirm`, touches no withdrawal and changes no balance amount. */
  lemma WithdrawMenuKeepsNothingToConfirm(w: World, from: Option<Users.Profile>, env: Env)
    requires WorldValid(w) && NothingToConfirm(w.sessions)
    ensures var (w', _) := WithdrawalInitiated(w, from, env.now);
      NothingToConfirm(w'.sessions) && w'.book == w.book && SameAmounts(w.ledger, w'.ledger)
  {
    GateKeepsNothingToConfirm(w, from, env.now);
    var (w1, ok) := Initialized(w, from, env.now);
    if ok {
      var id := from.value.telegramId;
      UpdateKeepsNothingToConfirm(w1.sessions, id, AwaitingWithdrawalAmount, NoUpdate, env.now);
      Balances.GetOrCreateKeepsAmounts(w1.ledger, UserKey(id), env.now);
    }
  }

  /**
   * Nothing said in the chat moves money: from any world in which no
   * session waits to confirm a draft with an amount (the empty one, for
   * instance), every update keeps it that way, submits no withdrawal and
   * changes no balance amount. The withdrawal draft loses its amount at the
   * account-name step and never gets it back before "Yes".
   */
  lemma ChatNeverMovesMoney(w: World, c: BankCache, from: Option<Users.Profile>, ev: Event, env: Env,
                            exceeds: (real, Balance) -> bool)
    requires WorldValid(w) && NothingToConfirm(w.sessions)
    ensures var (w', _) := Dispatch(w, c, from, ev, env, exceeds);
      NothingToConfirm(w'.sessions) && w'.book == w.book && SameAmounts(w.ledger, w'.ledger)
  {
    match ev
    case StartCommand => MenuKeepsNothingToConfirm(w, from, env);
    case MakePayment => MenuKeepsNothingToConfirm(w, from, env);
    case WithdrawFunds => WithdrawMenuKeepsNothingToConfirm(w, from, env);
    case WithdrawalHistory => MenuKeepsNothingToConfirm(w, from, env);
    case TextMessage(text) => TextKeepsNothingToConfirm(w, c, from, text, env, exceeds);
    case BankChoiceMessage(text) => BankChoiceKeepsNothingToConfirm(w, c, from, text, env);
    case YesButton => YesSubmitsNothing(w, from, env);
    case NoButton =>
      if !NoSender(from) {
        ClearKeepsNothingToConfirm(w.sessions, from.value.telegramId);
      }
    case CancelButton =>
      if !NoSender(from) {
        ClearKeepsNothingToConfirm(w.sessions, from.value.telegramId);
      }
  }

  /** A whole conversation: the updates one after another. */
  function Run(w: World, c: BankCache, updates: seq<(Option<Users.Profile>, Event, Env)>,
               exceeds: (real, Balance) -> bool): (r: (World, BankCache))
    requires WorldValid(w)
    ensures WorldValid(r.0)
    decreases |updates|
  {
    if updates == [] then (w, c)
    else
      var (w1, c1) := Dispatch(w, c, updates[0].0, updates[0].1, updates[0].2, exceeds);
      Run(w1, c1, updates[1..], exceeds)
  }

  /** Over any conversation, from a world with nothing to confirm, no withdrawal is submitted and no amount changes. */
  lemma {:induction false} RunNeverMovesMoney(w: World, c: BankCache, updates: seq<(Option<Users.Profile>, Event, Env)>,
                                              exceeds: (real, Balance) -> bool)
    requires WorldValid(w) && NothingToConfirm(w.sessions)
    ensures var (w', _) := Run(w, c, updates, exceeds);
      NothingToConfirm(w'.sessions) && w'.book == w.book && SameAmounts(w.ledger, w'.ledger)
    decreases |updates|
  {
    if updates != [] {
      ChatNeverMovesMoney(w, c, updates[0].0, updates[0].1, updates[0].2, exceeds);
      var (w1, c1) := Dispatch(w, c, updates[0].0, updates[0].1, updates[0].2, exceeds);
      RunNeverMovesMoney(w1, c1, updates[1..], exceeds);
    }
  }

  // ---------------------------------------------------------------- the handlers over the stores

  /** The stores and the cache the handlers step. */
  function State(bot: TelegramBotController): (World, BankCache)
    reads bot, bot.users, bot.sessions, bot.balances, bot.withdrawals
  {
    (bot.Snapshot(), bot.Cache())
  }

  /** `handlePaymentAmount`. */
  method HandlePaymentAmount(bot: TelegramBotController, id: int, text: string, env: Env)
    requires bot.Valid()
    modifies bot.sessions
    ensures bot.Valid()
    ensures bot.Snapshot() == PaymentAmountEntered(old(bot.Snapshot()), id, text, env)
  {
    var amount := env.parse(text);
    if amount.None? || amount.value <= 0.0 {
      return;
    }
    bot.sessions.UpdateSessionState(id, AwaitingMobile, PaymentStep(PaymentDraft(Some(text), None, None)), env.now);
  }

  /** `handlePaymentMobile`. */
  method HandlePaymentMobile(bot: TelegramBotController, from: Users.Profile, text: string, env: Env)
    returns (outcome: Option<ProcessOutcome>)
    requires bot.Valid()
    modifies bot.users, bot.sessions
    ensures bot.Valid()
    ensures (bot.Snapshot(), outcome) == MobileEntered(old(bot.Snapshot()), from, text, env)
  {
    if !MobileNumber(text) {
      return None;
    }
    bot.sessions.UpdateSessionState(from.telegramId, ProcessingPayment, PaymentStep(PaymentDraft(None, Some(text), None)), env.now);
    var o := bot.ProcessPayment(Some(from), from.telegramId, env);
    outcome := Some(o);
  }

  /** `handleWithdrawalAmount`, with the intended balance check. */
  method HandleWithdrawalAmount(bot: TelegramBotController, id: int, text: string, env: Env)
    requires bot.Valid()
    modifies bot.sessions, bot.balances
    ensures bot.Valid()
    ensures bot.Snapshot() == WithdrawalAmountEntered(old(bot.Snapshot()), id, text, env)
  {
    var amount := env.parse(text);
    if amount.None? || amount.value <= 0.0 {
      return;
    }
    var balance := bot.balances.GetBalance(UserKey(id), env.now);
    if amount.value > balance.balance {
      return;
    }
    bot.sessions.UpdateSessionState(id, AwaitingAccountName, WithdrawalStep(WithdrawalDraft(Some(text), None, None, None, None)), env.now);
  }

  /** `handleAccountName`. */
  method HandleAccountName(bot: TelegramBotController, id: int, text: string, now: int)
    requires bot.Valid()
    modifies bot.sessions
    ensures bot.Valid()
    ensures bot.Snapshot() == AccountNameEntered(old(bot.Snapshot()), id, text, now)
  {
    if Utf16Length(text) < 2 {
      return;
    }
    bot.sessions.UpdateSessionState(id, AwaitingAccountNumber, WithdrawalStep(WithdrawalDraft(None, Some(text), None, None, None)), now);
  }

  /** `handleAccountNumber`: returns the bank list sent, if any. */
  method HandleAccountNumber(bot: TelegramBotController, id: int, text: string, env: Env) returns (reply: Option<string>)
    requires bot.Valid()
    modifies bot, bot.sessions
    ensures bot.Valid()
    ensures var (w, c, r) := AccountNumberEntered(old(bot.Snapshot()), old(bot.Cache()), id, text, env);
      bot.Snapshot() == w && bot.Cache() == c && reply == r
  {
    if Utf16Length(text) < 10 || Utf16Length(text) > 16 {
      return None;
    }
    bot.sessions.UpdateSessionState(id, AwaitingBankChoice, WithdrawalStep(WithdrawalDraft(None, None, Some(text), None, None)), env.now);
    var banks := bot.GetBanksForSelection(env.now, env.fetchedBanks);
    var list := BankListMessage(banks);
    reply := Some(list);
  }

  /** The catch-all text handler. */
  method HandleText(bot: TelegramBotController, from: Option<Users.Profile>, text: string, env: Env)
    requires bot.Valid()
    modifies bot, bot.users, bot.sessions, bot.balances
    ensures bot.Valid()
    ensures State(bot) == TextReceived(old(bot.Snapshot()), old(bot.Cache()), from, text, env, ExceedsBalance)
  {
    if NoSender(from) {
      return;
    }
    var id := from.value.telegramId;
    var data := bot.sessions.GetSessionData(id);
    if data.None? {
      return;
    }
    match data.value.state
    case AwaitingAmount => HandlePaymentAmount(bot, id, text, env);
    case AwaitingMobile => var _ := HandlePaymentMobile(bot, from.value, text, env);
    case AwaitingWithdrawalAmount => HandleWithdrawalAmount(bot, id, text, env);
    case AwaitingAccountName => HandleAccountName(bot, id, text, env.now);
    case AwaitingAccountNumber => var _ := HandleAccountNumber(bot, id, text, env);
    case _ =>
  }

  /** The bank-selection handler. */
  method HandleBankSelection(bot: TelegramBotController, from: Option<Users.Profile>, text: string, env: Env)
    requires bot.Valid()
    modifies bot, bot.sessions
    ensures bot.Valid()
    ensures State(bot) == BankChosen(old(bot.Snapshot()), old(bot.Cache()), from, text, env)
  {
    if NoSender(from) {
      return;
    }
    var id := from.value.telegramId;
    var data := bot.sessions.GetSessionData(id);
    if data.None? || data.value.state != AwaitingBankChoice || text == "" {
      return;
    }
    var index := ChoiceNumber(text) - 1;
    var banks := bot.GetBanksForSelection(env.now, env.fetchedBanks);
    if 0 <= index < |banks| {
      var bank := banks[index];
      bot.sessions.UpdateSessionState(id, AwaitingAccountName,
                                      WithdrawalStep(WithdrawalDraft(None, None, None, Some(bank.id), Some(bank.name))), env.now);
      bot.sessions.UpdateSessionState(id, AwaitingBankConfirmation, NoUpdate, env.now);
    }
  }

  /** The "Yes" handler. */
  method HandleYes(bot: TelegramBotController, from: Option<Users.Profile>, env: Env)
    requires bot.Valid()
    modifies bot.users, bot.sessions, bot.balances, bot.withdrawals
    ensures bot.Valid()
    ensures bot.Snapshot() == YesPressed(old(bot.Snapshot()), from, env)
  {
    if NoSender(from) {
      return;
    }
    var id := from.value.telegramId;
    var data := bot.sessions.GetSessionData(id);
    if data.Some? && data.value.state == AwaitingBankConfirmation {
      var _ := bot.ProcessWithdrawal(from, id, env);
    }
  }

  /** The "No" handler. */
  method HandleNo(bot: TelegramBotController, from: Option<Users.Profile>)
    requires bot.Valid()
    modifies bot.sessions
    ensures bot.Valid()
    ensures bot.Snapshot() == NoPressed(old(bot.Snapshot()), from)
  {
    if NoSender(from) {
      return;
    }
    var id := from.value.telegramId;
    var data := bot.sessions.GetSessionData(id);
    if data.Some? && data.value.state == AwaitingBankConfirmation {
      bot.sessions.ClearSession(id);
    }
  }

  /** The "❌ Cancel" handler. */
  method HandleCancel(bot: TelegramBotController, from: Option<Users.Profile>)
    requires bot.Valid()
    modifies bot.sessions
    ensures bot.Valid()
    ensures bot.Snapshot() == CancelPressed(old(bot.Snapshot()), from)
  {
    if NoSender(from) {
      return;
    }
    bot.sessions.ClearSession(from.value.telegramId);
  }
}
