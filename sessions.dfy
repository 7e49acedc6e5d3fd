/**
 * The per-user conversation session: the UserSession collection
 * (server/models/UserSession.ts) and the service over it
 * (server/services/SessionService.ts).
 *
 * The collection is a map from `telegramId` to its session, so there is at
 * most one session per Telegram user (the unique index). Time is the `now`
 * parameter, in milliseconds. Every caller of `updateState` passes one of the
 * ten values of the schema's enum, so the state is a datatype here.
 */
module Sessions {
  import opened Common

  datatype State =
    | Idle
    | AwaitingAmount
    | AwaitingMobile
    | AwaitingWithdrawalAmount
    | AwaitingAccountName
    | AwaitingAccountNumber
    | AwaitingBankChoice
    | AwaitingBankConfirmation
    | ProcessingPayment
    | ProcessingWithdrawal

  /** The `paymentData` sub-record; every field is optional. */
  datatype PaymentDraft = PaymentDraft(amount: Option<string>, mobile: Option<string>, reference: Option<string>)

  /** The `withdrawalData` sub-record; every field is optional. */
  datatype WithdrawalDraft = WithdrawalDraft(
    amount: Option<string>,
    accountName: Option<string>,
    accountNumber: Option<string>,
    bankCode: Option<int>,
    bankName: Option<string>)

  /** The `context` sub-record; every field is optional. */
  datatype Context = Context(
    lastCommand: Option<string>,
    lastMessageId: Option<int>,
    lastMenuMessageId: Option<int>,
    conversationStep: Option<int>)

  const EmptyPayment: PaymentDraft := PaymentDraft(None, None, None)
  const EmptyWithdrawal: WithdrawalDraft := WithdrawalDraft(None, None, None, None, None)
  const EmptyContext: Context := Context(None, None, None, None)

  /**
   * The `data` argument of `updateState`: the sub-records it supplies. Any
   * supplied object is truthy in JavaScript, so `Some` is "supplied".
   */
  datatype SessionUpdate = SessionUpdate(
    paymentData: Option<PaymentDraft>,
    withdrawalData: Option<WithdrawalDraft>,
    context: Option<Context>)

  const NoUpdate: SessionUpdate := SessionUpdate(None, None, None)

  datatype Session = Session(
    telegramId: int,
    state: State,
    paymentData: PaymentDraft,
    withdrawalData: WithdrawalDraft,
    context: Context,
    expiresAt: int,
    isActive: bool)

  type SessionMap = map<int, Session>

  /** The session lifetime: 30 minutes. */
  const Ttl: int := 30 * MinuteMs

  /** Every stored session is keyed by its own `telegramId`. */
  predicate MapValid(m: SessionMap)
  {
    forall id :: id in m ==> m[id].telegramId == id
  }

  /** `new UserSession({ telegramId })`: the schema defaults. */
  function NewSession(telegramId: int, now: int): Session
  {
    Session(telegramId, Idle, EmptyPayment, EmptyWithdrawal, EmptyContext, now + Ttl, true)
  }

  /** `extendSession`. */
  function Extend(s: Session, now: int): Session
  {
    s.(expiresAt := now + Ttl)
  }

  /** `clearSession`. */
  function Clear(s: Session): Session
  {
    s.(state := Idle, paymentData := EmptyPayment, withdrawalData := EmptyWithdrawal,
       context := EmptyContext, isActive := false)
  }

  /** `updateState`: every supplied sub-record REPLACES the stored one. */
  function UpdateState(s: Session, newState: State, data: SessionUpdate, now: int): Session
  {
    var s1 := s.(state := newState, isActive := true);
    var s2 := s1.(paymentData := if data.paymentData.Some? then data.paymentData.value else s1.paymentData);
    var s3 := s2.(withdrawalData := if data.withdrawalData.Some? then data.withdrawalData.value else s2.withdrawalData);
    var s4 := s3.(context := if data.context.Some? then data.context.value else s3.context);
    Extend(s4, now)
  }

  /** The guard of `getOrCreateSession` for an existing session. */
  predicate NeedsReactivation(s: Session, now: int)
  {
    !s.isActive || s.expiresAt < now
  }

  /** `UserSession.getOrCreateSession`: the collection after the call, and the session returned. */
  function GetOrCreate(m: SessionMap, telegramId: int, now: int): (r: (SessionMap, Session))
    requires MapValid(m)
    ensures MapValid(r.0) && telegramId in r.0 && r.1 == r.0[telegramId]
  {
    if telegramId !in m then
      var s := NewSession(telegramId, now);
      (m[telegramId := s], s)
    else if NeedsReactivation(m[telegramId], now) then
      var s := Extend(m[telegramId].(isActive := true), now);
      (m[telegramId := s], s)
    else
      (m, m[telegramId])
  }

  /** `SessionService.updateSessionState`: get-or-create, then `updateState`. */
  function UpdateIn(m: SessionMap, telegramId: int, newState: State, data: SessionUpdate, now: int): (r: SessionMap)
    requires MapValid(m)
    ensures MapValid(r)
  {
    var (m1, s) := GetOrCreate(m, telegramId, now);
    m1[telegramId := UpdateState(s, newState, data, now)]
  }

  /** `SessionService.clearSession`: only an existing session is cleared. */
  function ClearIn(m: SessionMap, telegramId: int): (r: SessionMap)
    requires MapValid(m)
    ensures MapValid(r)
  {
    if telegramId in m then m[telegramId := Clear(m[telegramId])] else m
  }

  /** `SessionService.extendSession`: only an existing session is extended. */
  function ExtendIn(m: SessionMap, telegramId: int, now: int): (r: SessionMap)
    requires MapValid(m)
    ensures MapValid(r)
  {
    if telegramId in m then m[telegramId := Extend(m[telegramId], now)] else m
  }

  /** The projection returned by `SessionService.getSessionData`. */
  datatype SessionData = SessionData(
    state: State,
    paymentData: PaymentDraft,
    withdrawalData: WithdrawalDraft,
    isActive: bool,
    expiresAt: int)

  /** The projection of one stored session. */
  function DataOf(s: Session): SessionData
  {
    SessionData(s.state, s.paymentData, s.withdrawalData, s.isActive, s.expiresAt)
  }

  /** The filter of `cleanupExpiredSessions`: active and `expiresAt < now`. */
  predicate Expired(s: Session, now: int)
  {
    s.isActive && s.expiresAt < now
  }

  /** The users whose session `cleanupExpiredSessions` deactivates. */
  function ExpiredIds(m: SessionMap, now: int): set<int>
  {
    set id | id in m && Expired(m[id], now)
  }

  /** The users whose session counts in `getActiveSessionsCount`. */
  function ActiveIds(m: SessionMap): set<int>
  {
    set id | id in m && m[id].isActive
  }

  /** `cleanupExpiredSessions`: the `updateMany` setting `isActive` to false. */
  function Cleanup(m: SessionMap, now: int): (r: SessionMap)
    requires MapValid(m)
    ensures MapValid(r)
  {
    map id | id in m :: if Expired(m[id], now) then m[id].(isActive := false) else m[id]
  }

  /** A new session is idle, active, has empty drafts and lives for 30 minutes. */
  lemma NewSessionDefaults(telegramId: int, now: int)
    ensures var s := NewSession(telegramId, now);
      && s.state == Idle && s.isActive && s.expiresAt == now + 30 * 60 * 1000
      && s.paymentData == EmptyPayment && s.withdrawalData == EmptyWithdrawal && s.context == EmptyContext
      && !NeedsReactivation(s, now)
  {
  }

  /** `updateState` sets the state, activates, replaces exactly the supplied sub-records and extends the TTL. */
  lemma UpdateStateContract(s: Session, newState: State, data: SessionUpdate, now: int)
    ensures var r := UpdateState(s, newState, data, now);
      && r.telegramId == s.telegramId
      && r.state == newState && r.isActive && r.expiresAt == now + Ttl
      && (data.paymentData.Some? ==> r.paymentData == data.paymentData.value)
      && (data.paymentData.None? ==> r.paymentData == s.paymentData)
      && (data.withdrawalData.Some? ==> r.withdrawalData == data.withdrawalData.value)
      && (data.withdrawalData.None? ==> r.withdrawalData == s.withdrawalData)
      && (data.context.Some? ==> r.context == data.context.value)
      && (data.context.None? ==> r.context == s.context)
  {
  }

  /**
   * A supplied draft replaces the stored one whole: every field it leaves
   * out is gone afterwards, whatever the session held. There is no merge.
   */
  lemma UpdateStateDropsOmittedFields(s: Session, newState: State, pd: PaymentDraft, wd: WithdrawalDraft, now: int)
    ensures UpdateState(s, newState, SessionUpdate(Some(pd), None, None), now).paymentData == pd
    ensures UpdateState(s, newState, SessionUpdate(None, Some(wd), None), now).withdrawalData == wd
  {
  }

  /** Clearing resets state, drafts and context, deactivates, and keeps the expiry; it is idempotent. */
  lemma ClearContract(s: Session)
    ensures var r := Clear(s);
      && r.state == Idle && !r.isActive && r.expiresAt == s.expiresAt && r.telegramId == s.telegramId
      && r.paymentData == EmptyPayment && r.withdrawalData == EmptyWithdrawal && r.context == EmptyContext
      && Clear(r) == r
  {
  }

  /**
   * `getOrCreateSession` creates only a missing session, reactivates an
   * inactive or expired one with a fresh TTL keeping its state and drafts,
   * returns a live one unchanged, and never touches another user's session.
   */
  lemma GetOrCreateContract(m: SessionMap, telegramId: int, now: int)
    requires MapValid(m)
    ensures var (m', s) := GetOrCreate(m, telegramId, now);
      && m'.Keys == m.Keys + {telegramId}
      && s.isActive && s.expiresAt >= now
      && (telegramId !in m ==> s == NewSession(telegramId, now))
      && (telegramId in m && NeedsReactivation(m[telegramId], now) ==>
            s == m[telegramId].(isActive := true, expiresAt := now + Ttl))
      && (telegramId in m && !NeedsReactivation(m[telegramId], now) ==> m' == m)
      && (forall id :: id in m && id != telegramId ==> m'[id] == m[id])
  {
  }

  /** A second `getOrCreateSession` at the same instant changes nothing. */
  lemma GetOrCreateIdempotent(m: SessionMap, telegramId: int, now: int)
    requires MapValid(m)
    ensures var (m', s) := GetOrCreate(m, telegramId, now);
      GetOrCreate(m', telegramId, now) == (m', s)
  {
    GetOrCreateContract(m, telegramId, now);
  }

  /**
   * After `updateSessionState` the session exists with the new state and is
   * active for 30 more minutes; other users' sessions are untouched.
   */
  lemma UpdateSessionStateContract(m: SessionMap, telegramId: int, newState: State, data: SessionUpdate, now: int)
    requires MapValid(m)
    ensures var m' := UpdateIn(m, telegramId, newState, data, now);
      && m'.Keys == m.Keys + {telegramId}
      && m'[telegramId].state == newState && m'[telegramId].isActive && m'[telegramId].expiresAt == now + Ttl
      && (data.paymentData.None? ==>
            m'[telegramId].paymentData == (if telegramId in m then m[telegramId].paymentData else EmptyPayment))
      && (data.withdrawalData.None? ==>
            m'[telegramId].withdrawalData == (if telegramId in m then m[telegramId].withdrawalData else EmptyWithdrawal))
      && (forall id :: id in m && id != telegramId ==> m'[id] == m[id])
  {
    GetOrCreateContract(m, telegramId, now);
  }

  /** `clearSession` and `extendSession` on a user without a session change nothing. */
  lemma MissingSessionNoOps(m: SessionMap, telegramId: int, now: int)
    requires MapValid(m) && telegramId !in m
    ensures ClearIn(m, telegramId) == m && ExtendIn(m, telegramId, now) == m
  {
  }

  /**
   * `cleanupExpiredSessions` deactivates exactly the active expired sessions,
   * leaves every other session as it was, and leaves no active expired
   * session behind; the count it returns is the drop in the active count.
   */
  lemma {:induction false} CleanupContract(m: SessionMap, now: int)
    requires MapValid(m)
    ensures var m' := Cleanup(m, now);
      && m'.Keys == m.Keys
      && (forall id :: id in m && Expired(m[id], now) ==> m'[id] == m[id].(isActive := false))
      && (forall id :: id in m && !Expired(m[id], now) ==> m'[id] == m[id])
      && ExpiredIds(m', now) == {}
      && |ActiveIds(m')| + |ExpiredIds(m, now)| == |ActiveIds(m)|
  {
    var m' := Cleanup(m, now);
    assert forall id :: id in m' ==> !Expired(m'[id], now);
    assert forall id :: id !in ExpiredIds(m', now);
    forall id | id in ExpiredIds(m, now)
      ensures id in ActiveIds(m)
    {
      assert m[id].isActive;
    }
    assert ActiveIds(m') == ActiveIds(m) - ExpiredIds(m, now);
    SubsetCard(ActiveIds(m) - ExpiredIds(m, now), ExpiredIds(m, now), ActiveIds(m));
  }

  /** Removing a subset from a finite set removes its size from the size. */
  lemma SubsetCard(rest: set<int>, sub: set<int>, all: set<int>)
    requires sub <= all && rest == all - sub
    ensures |rest| + |sub| == |all|
  {
    assert all == rest + sub;
    assert rest * sub == {};
  }

  /**
   * The session collection together with the operations of SessionService.
   * Each method is one sequential request; the store's own failures are
   * not modelled.
   */
  class SessionStore {
    var sessions: SessionMap

    ghost predicate Valid()
      reads this
    {
      MapValid(sessions)
    }

    constructor ()
      ensures Valid() && sessions == map[]
    {
      sessions := map[];
    }

    /** `UserSession.findOne({ telegramId })` and `SessionService.getSession`. */
    method GetSession(telegramId: int) returns (s: Option<Session>)
      requires Valid()
      ensures s.None? <==> telegramId !in sessions
      ensures s.Some? ==> s.value == sessions[telegramId] && s.value.telegramId == telegramId
    {
      if telegramId in sessions {
        s := Some(sessions[telegramId]);
      } else {
        s := None;
      }
    }

    /** `SessionService.getOrCreateSession`. */
    method GetOrCreateSession(telegramId: int, now: int) returns (s: Session)
      requires Valid()
      modifies this
      ensures Valid()
      ensures (sessions, s) == GetOrCreate(old(sessions), telegramId, now)
    {
      if telegramId !in sessions {
        s := NewSession(telegramId, now);
        sessions := sessions[telegramId := s];
      } else {
        s := sessions[telegramId];
        if !s.isActive || s.expiresAt < now {
          s := s.(isActive := true);
          s := s.(expiresAt := now + Ttl);
          sessions := sessions[telegramId := s];
        }
      }
    }

    /** `SessionService.updateSessionState`. */
    method UpdateSessionState(telegramId: int, newState: State, data: SessionUpdate, now: int)
      requires Valid()
      modifies this
      ensures Valid()
      ensures sessions == UpdateIn(old(sessions), telegramId, newState, data, now)
    {
      var s := GetOrCreateSession(telegramId, now);
      s := s.(state := newState, isActive := true);
      if data.paymentData.Some? {
        s := s.(paymentData := data.paymentData.value);
      }
      if data.withdrawalData.Some? {
        s := s.(withdrawalData := data.withdrawalData.value);
      }
      if data.context.Some? {
        s := s.(context := data.context.value);
      }
      s := s.(expiresAt := now + Ttl);
      sessions := sessions[telegramId := s];
    }

    /** `SessionService.clearSession`. */
    method ClearSession(telegramId: int)
      requires Valid()
      modifies this
      ensures Valid()
      ensures sessions == ClearIn(old(sessions), telegramId)
    {
      if telegramId in sessions {
        sessions := sessions[telegramId := Clear(sessions[telegramId])];
      }
    }

    /** `SessionService.extendSession`. */
    method ExtendSession(telegramId: int, now: int)
      requires Valid()
      modifies this
      ensures Valid()
      ensures sessions == ExtendIn(old(sessions), telegramId, now)
    {
      if telegramId in sessions {
        sessions := sessions[telegramId := Extend(sessions[telegramId], now)];
      }
    }

    /**
     * `SessionService.getSessionData`: null exactly when there is no record;
     * an inactive or expired session is reported as it is stored.
     */
    method GetSessionData(telegramId: int) returns (d: Option<SessionData>)
      requires Valid()
      ensures d.None? <==> telegramId !in sessions
      ensures d.Some? ==> d.value.state == sessions[telegramId].state
                          && d.value.paymentData == sessions[telegramId].paymentData
                          && d.value.withdrawalData == sessions[telegramId].withdrawalData
                          && d.value.isActive == sessions[telegramId].isActive
                          && d.value.expiresAt == sessions[telegramId].expiresAt
    {
      if telegramId !in sessions {
        return None;
      }
      d := Some(DataOf(sessions[telegramId]));
    }

    /** `SessionService.cleanupExpiredSessions`: returns the number of sessions deactivated. */
    method CleanupExpiredSessions(now: int) returns (count: nat)
      requires Valid()
      modifies this
      ensures Valid()
      ensures sessions == Cleanup(old(sessions), now)
      ensures count == |ExpiredIds(old(sessions), now)|
      ensures count + |ActiveIds(sessions)| == |ActiveIds(old(sessions))|
    {
      CleanupContract(sessions, now);
      count := |ExpiredIds(sessions, now)|;
      sessions := Cleanup(sessions, now);
    }

    /** `SessionService.getActiveSessionsCount`. */
    method GetActiveSessionsCount() returns (n: nat)
      requires Valid()
      ensures n == |ActiveIds(sessions)|
    {
      n := |ActiveIds(sessions)|;
    }
  }
}
