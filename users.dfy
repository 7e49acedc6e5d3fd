/**
 * The chat users: the User collection (server/models/User.ts) and the parts
 * of server/services/UserService.ts the bot relies on.
 *
 * The collection is a map from `telegramId` to its record (the unique
 * index). `save()` enforces `required: true` on `firstName`, which Mongoose
 * also fails for the empty string. The statistics and blocked-user lookups
 * the bot calls on UserService are given the behaviour of the record
 * methods they name.
 */
module Users {
  import opened Common

  datatype Statistics = Statistics(
    totalPayments: int,
    totalWithdrawals: int,
    totalAmountPaid: real,
    totalAmountWithdrawn: real,
    lastPaymentDate: Option<int>,
    lastWithdrawalDate: Option<int>)

  datatype User = User(
    telegramId: int,
    username: Option<string>,
    firstName: string,
    lastName: Option<string>,
    isActive: bool,
    isBlocked: bool,
    lastActivity: int,
    registrationDate: int,
    language: string,
    notifications: bool,
    statistics: Statistics)

  /** The `userData` argument of `getOrCreateUser`: the sender's profile. */
  datatype Profile = Profile(telegramId: int, username: Option<string>, firstName: Option<string>, lastName: Option<string>)

  type UserMap = map<int, User>

  const ZeroStatistics: Statistics := Statistics(0, 0, 0.0, 0.0, None, None)

  /** The message UserService raises when the user cannot be read or saved. */
  const GetOrCreateFailed: string := "Failed to get or create user"

  /** Every stored user is keyed by its own `telegramId` and has a first name. */
  predicate MapValid(m: UserMap)
  {
    forall id :: id in m ==> m[id].telegramId == id && m[id].firstName != ""
  }

  /** `new User(userData)`: the profile plus the schema defaults. */
  function NewUser(p: Profile, now: int): User
  {
    User(p.telegramId, p.username, OrEmpty(p.firstName), p.lastName, true, false, now, now, "en", true, ZeroStatistics)
  }

  /** `updateActivity`. */
  function Touch(u: User, now: int): User
  {
    u.(lastActivity := now)
  }

  /** `toggleBlock`. */
  function ToggleBlock(u: User): User
  {
    u.(isBlocked := !u.isBlocked)
  }

  /** `updatePaymentStats(amount)`. */
  function AddPayment(u: User, amount: real, now: int): User
  {
    var st := u.statistics;
    u.(statistics := st.(totalPayments := st.totalPayments + 1,
                         totalAmountPaid := st.totalAmountPaid + amount,
                         lastPaymentDate := Some(now)))
  }

  /** `updateWithdrawalStats(amount)`. */
  function AddWithdrawal(u: User, amount: real, now: int): User
  {
    var st := u.statistics;
    u.(statistics := st.(totalWithdrawals := st.totalWithdrawals + 1,
                         totalAmountWithdrawn := st.totalAmountWithdrawn + amount,
                         lastWithdrawalDate := Some(now)))
  }

  /**
   * `User.getOrCreateUser` with UserService's error wrapping: a new record
   * only for an unknown `telegramId`; a known user gets the profile's names
   * and a fresh `lastActivity`. Either save fails without a first name.
   */
  function GetOrCreateIn(m: UserMap, p: Profile, now: int): (r: (UserMap, Result<User>))
    requires MapValid(m)
    ensures MapValid(r.0)
  {
    if !Truthy(p.firstName) then (m, Err(GetOrCreateFailed))
    else if p.telegramId !in m then
      var u := NewUser(p, now);
      (m[p.telegramId := u], Ok(u))
    else
      var u := m[p.telegramId].(username := p.username, firstName := p.firstName.value,
                                lastName := p.lastName, lastActivity := now);
      (m[p.telegramId := u], Ok(u))
  }

  /** Applies a record method to a stored user; a missing user is left alone. */
  function UpdateIn(m: UserMap, telegramId: int, f: User -> User): (r: UserMap)
    requires MapValid(m)
    requires forall u :: (f(u).telegramId, f(u).firstName) == (u.telegramId, u.firstName)
    ensures MapValid(r)
  {
    if telegramId in m then m[telegramId := f(m[telegramId])] else m
  }

  /** `updateActivity` on the stored user `telegramId`. */
  function TouchIn(m: UserMap, telegramId: int, now: int): (r: UserMap)
    requires MapValid(m)
    ensures MapValid(r)
  {
    UpdateIn(m, telegramId, u => Touch(u, now))
  }

  /** `updatePaymentStats(amount)` on the stored user `telegramId`. */
  function PaymentStatsIn(m: UserMap, telegramId: int, amount: real, now: int): (r: UserMap)
    requires MapValid(m)
    ensures MapValid(r)
  {
    UpdateIn(m, telegramId, u => AddPayment(u, amount, now))
  }

  /** `updateWithdrawalStats(amount)` on the stored user `telegramId`. */
  function WithdrawalStatsIn(m: UserMap, telegramId: int, amount: real, now: int): (r: UserMap)
    requires MapValid(m)
    ensures MapValid(r)
  {
    UpdateIn(m, telegramId, u => AddWithdrawal(u, amount, now))
  }

  /** `getActiveUsers`: the users with `isActive` true and `isBlocked` false. */
  function ActiveUsers(m: UserMap): set<int>
  {
    set id | id in m && m[id].isActive && !m[id].isBlocked
  }

  /** The cutoff of `getInactiveUsers(daysInactive)`: `daysInactive` days before now. */
  function InactiveCutoff(now: int, daysInactive: int): int
  {
    now - daysInactive * DayMs
  }

  /** `getInactiveUsers(daysInactive)`: active users last seen strictly before the cutoff. */
  function InactiveUsers(m: UserMap, now: int, daysInactive: int): set<int>
  {
    set id | id in m && m[id].lastActivity < InactiveCutoff(now, daysInactive) && m[id].isActive
  }

  /** A new user is active, unblocked, and all its counters are 0. */
  lemma NewUserDefaults(p: Profile, now: int)
    ensures var u := NewUser(p, now);
      && u.isActive && !u.isBlocked
      && u.statistics.totalPayments == 0 && u.statistics.totalWithdrawals == 0
      && u.statistics.totalAmountPaid == 0.0 && u.statistics.totalAmountWithdrawn == 0.0
      && u.telegramId == p.telegramId
  {
  }

  /** Toggling twice restores the blocked flag, and toggling changes nothing else. */
  lemma ToggleBlockInvolution(u: User)
    ensures ToggleBlock(ToggleBlock(u)) == u
    ensures ToggleBlock(u).isBlocked != u.isBlocked
    ensures ToggleBlock(u).(isBlocked := u.isBlocked) == u
  {
  }

  /** Toggling an active user's block moves it into or out of the active users. */
  lemma ToggleBlockActiveUsers(m: UserMap, telegramId: int)
    requires MapValid(m) && telegramId in m && m[telegramId].isActive
    ensures var m' := UpdateIn(m, telegramId, ToggleBlock);
      (telegramId in ActiveUsers(m')) != (telegramId in ActiveUsers(m))
      && ActiveUsers(m') - {telegramId} == ActiveUsers(m) - {telegramId}
  {
    var m' := UpdateIn(m, telegramId, ToggleBlock);
    assert m' == m[telegramId := ToggleBlock(m[telegramId])];
    var u' := m'[telegramId];
    assert u'.isActive && u'.isBlocked == !m[telegramId].isBlocked;
    if m[telegramId].isBlocked {
      assert telegramId in ActiveUsers(m');
    } else {
      assert telegramId in ActiveUsers(m);
    }
  }

  /**
   * A payment adds one to the payment count and `amount` to the amount
   * paid, and leaves the withdrawal counters alone; the withdrawal update
   * is its mirror image.
   */
  lemma StatsUpdatesTouchOwnCounters(u: User, amount: real, now: int)
    ensures var p := AddPayment(u, amount, now).statistics;
      && p.totalPayments == u.statistics.totalPayments + 1
      && p.totalAmountPaid == u.statistics.totalAmountPaid + amount
      && p.lastPaymentDate == Some(now)
      && p.totalWithdrawals == u.statistics.totalWithdrawals
      && p.totalAmountWithdrawn == u.statistics.totalAmountWithdrawn
      && p.lastWithdrawalDate == u.statistics.lastWithdrawalDate
    ensures var w := AddWithdrawal(u, amount, now).statistics;
      && w.totalWithdrawals == u.statistics.totalWithdrawals + 1
      && w.totalAmountWithdrawn == u.statistics.totalAmountWithdrawn + amount
      && w.lastWithdrawalDate == Some(now)
      && w.totalPayments == u.statistics.totalPayments
      && w.totalAmountPaid == u.statistics.totalAmountPaid
      && w.lastPaymentDate == u.statistics.lastPaymentDate
  {
  }

  /** The two statistics updates are independent: their order does not matter. */
  lemma StatsUpdatesCommute(u: User, a: real, b: real, now: int)
    ensures AddWithdrawal(AddPayment(u, a, now), b, now) == AddPayment(AddWithdrawal(u, b, now), a, now)
  {
  }

  /**
   * `getOrCreateUser` creates a record only for an unknown `telegramId`;
   * for a known one it overwrites username, names and `lastActivity` and
   * keeps statistics, flags and registration date; other users are untouched.
   */
  lemma GetOrCreateContract(m: UserMap, p: Profile, now: int)
    requires MapValid(m)
    ensures var (m', r) := GetOrCreateIn(m, p, now);
      && (r.Err? <==> !Truthy(p.firstName))
      && (r.Err? ==> m' == m)
      && (r.Ok? ==> m'.Keys == m.Keys + {p.telegramId} && r.value == m'[p.telegramId]
                    && r.value.username == p.username && Some(r.value.firstName) == p.firstName
                    && r.value.lastName == p.lastName)
      && (r.Ok? && p.telegramId !in m ==> r.value == NewUser(p, now))
      && (r.Ok? && p.telegramId in m ==>
            && r.value.statistics == m[p.telegramId].statistics
            && r.value.isActive == m[p.telegramId].isActive
            && r.value.isBlocked == m[p.telegramId].isBlocked
            && r.value.registrationDate == m[p.telegramId].registrationDate
            && r.value.lastActivity == now)
      && (forall id :: id in m && id != p.telegramId ==> id in m' && m'[id] == m[id])
  {
  }

  /** A known user never gets a second record: a repeated call keeps the same key set. */
  lemma GetOrCreateNoDuplicate(m: UserMap, p: Profile, now1: int, now2: int)
    requires MapValid(m)
    ensures var (m1, _) := GetOrCreateIn(m, p, now1);
      var (m2, _) := GetOrCreateIn(m1, p, now2);
      m2.Keys == m1.Keys
  {
  }

  /** A longer inactivity window selects fewer users, and every selected user is active. */
  lemma InactiveUsersMonotone(m: UserMap, now: int, d1: int, d2: int)
    requires d1 <= d2
    ensures InactiveUsers(m, now, d2) <= InactiveUsers(m, now, d1)
    ensures forall id :: id in InactiveUsers(m, now, d1) ==> id in m && m[id].isActive
  {
    assert InactiveCutoff(now, d2) <= InactiveCutoff(now, d1) by {
      assert d1 * DayMs <= d2 * DayMs;
    }
  }

  /**
   * A newly registered user is listed by `getActiveUsers` at once, and
   * registering one changes no one else's listing; a repeated sign-in of a
   * known user does not change the listing at all.
   */
  lemma GetOrCreateActiveUsers(m: UserMap, p: Profile, now: int)
    requires MapValid(m) && Truthy(p.firstName)
    ensures var m' := GetOrCreateIn(m, p, now).0;
      && (p.telegramId !in m ==> ActiveUsers(m') == ActiveUsers(m) + {p.telegramId})
      && (p.telegramId in m ==> ActiveUsers(m') == ActiveUsers(m))
  {
    var m' := GetOrCreateIn(m, p, now).0;
    GetOrCreateContract(m, p, now);
    if p.telegramId !in m {
      NewUserDefaults(p, now);
      assert forall id :: id in ActiveUsers(m') <==> id in ActiveUsers(m) + {p.telegramId};
    } else {
      assert forall id :: id in ActiveUsers(m') <==> id in ActiveUsers(m);
    }
  }

  /** The user collection with the operations the bot and the maintenance job call. */
  class UserStore {
    var users: UserMap

    ghost predicate Valid()
      reads this
    {
      MapValid(users)
    }

    constructor ()
      ensures Valid() && users == map[]
    {
      users := map[];
    }

    /** `UserService.getOrCreateUser`. */
    method GetOrCreateUser(p: Profile, now: int) returns (r: Result<User>)
      requires Valid()
      modifies this
      ensures Valid()
      ensures (users, r) == GetOrCreateIn(old(users), p, now)
    {
      if !Truthy(p.firstName) {
        return Err(GetOrCreateFailed);
      }
      var u: User;
      if p.telegramId !in users {
        u := NewUser(p, now);
      } else {
        u := users[p.telegramId];
        u := u.(username := p.username);
        u := u.(firstName := p.firstName.value);
        u := u.(lastName := p.lastName);
        u := u.(lastActivity := now);
      }
      users := users[p.telegramId := u];
      r := Ok(u);
    }

    /** `UserService.updateUserActivity`: a missing user is left alone. */
    method UpdateUserActivity(telegramId: int, now: int)
      requires Valid()
      modifies this
      ensures Valid()
      ensures users == TouchIn(old(users), telegramId, now)
    {
      if telegramId in users {
        users := users[telegramId := Touch(users[telegramId], now)];
      }
    }

    /** `toggleBlock` on the stored record of `telegramId`. */
    method ToggleUserBlock(telegramId: int)
      requires Valid()
      modifies this
      ensures Valid()
      ensures users == UpdateIn(old(users), telegramId, ToggleBlock)
    {
      if telegramId in users {
        users := users[telegramId := ToggleBlock(users[telegramId])];
      }
    }

    /** `UserService.updatePaymentStats(telegramId, amount)`: the record method on the stored user. */
    method UpdatePaymentStats(telegramId: int, amount: real, now: int)
      requires Valid()
      modifies this
      ensures Valid()
      ensures users == PaymentStatsIn(old(users), telegramId, amount, now)
    {
      if telegramId in users {
        users := users[telegramId := AddPayment(users[telegramId], amount, now)];
      }
    }

    /** `UserService.updateWithdrawalStats(telegramId, amount)`: the record method on the stored user. */
    method UpdateWithdrawalStats(telegramId: int, amount: real, now: int)
      requires Valid()
      modifies this
      ensures Valid()
      ensures users == WithdrawalStatsIn(old(users), telegramId, amount, now)
    {
      if telegramId in users {
        users := users[telegramId := AddWithdrawal(users[telegramId], amount, now)];
      }
    }

    /** `UserService.isUserBlocked`: a known user whose `isBlocked` flag is set. */
    method IsUserBlocked(telegramId: int) returns (blocked: bool)
      requires Valid()
      ensures blocked <==> telegramId in users && users[telegramId].isBlocked
    {
      blocked := telegramId in users && users[telegramId].isBlocked;
    }

    /** `UserService.getInactiveUsers(daysInactive)`. */
    method GetInactiveUsers(now: int, daysInactive: int) returns (ids: set<int>)
      requires Valid()
      ensures ids == InactiveUsers(users, now, daysInactive)
    {
      ids := InactiveUsers(users, now, daysInactive);
    }
  }
}
