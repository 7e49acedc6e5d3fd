/**
 * The maintenance scheduler (server/services/MaintenanceService.ts): the
 * start/stop guard on the interval handle, the status it reports, and one
 * maintenance run, whose three subtasks each run in their own try block.
 *
 * The timer is the handle alone: `setInterval` becomes the handle the
 * caller supplies, and each later tick is one more call of
 * `PerformMaintenance`. Which subtasks throw is an input, `Faults`.
 * `resetStuckSessions` and `getStuckSessions` are not defined by the
 * session service, so their answers are inputs as well.
 */
module Maintenance {
  import opened Common
  import Sessions
  import Users

  const CleanupInterval: int := 30 * MinuteMs
  const SessionTimeout: int := 30 * MinuteMs
  const UserInactivityDays: int := 30
  /** The window of `getHealthMetrics`' inactive-user count. */
  const HealthInactivityDays: int := 7

  /** Which subtasks of a run throw; `stuckReset` is the answer of `resetStuckSessions` (`None`: it throws). */
  datatype Faults = Faults(cleanupFails: bool, stuckReset: Option<nat>, inactiveFails: bool)

  /** The `results` object of a run. */
  datatype Results = Results(expiredSessionsCleaned: nat, stuckSessionsReset: nat, inactiveUsersFound: nat, errors: nat)

  /** The three subtasks. */
  datatype Subtask = CleanupTask | ResetTask | InactiveTask

  /** The subtasks that throw under `f`. */
  function FailedTasks(f: Faults): set<Subtask>
  {
    (if f.cleanupFails then {CleanupTask} else {})
    + (if f.stuckReset.None? then {ResetTask} else {})
    + (if f.inactiveFails then {InactiveTask} else {})
  }

  /**
   * One run over the session and user collections: the sessions after
   * the cleanup (unchanged when it throws) and the counters.
   */
  function Maintained(m: Sessions.SessionMap, users: Users.UserMap, now: int, f: Faults): (Sessions.SessionMap, Results)
    requires Sessions.MapValid(m)
  {
    var cleaned := if f.cleanupFails then 0 else |Sessions.ExpiredIds(m, now)|;
    var reset := if f.stuckReset.None? then 0 else f.stuckReset.value;
    var inactive := if f.inactiveFails then 0 else |Users.InactiveUsers(users, now, UserInactivityDays)|;
    var errors := (if f.cleanupFails then 1 else 0) + (if f.stuckReset.None? then 1 else 0) + (if f.inactiveFails then 1 else 0);
    (if f.cleanupFails then m else Sessions.Cleanup(m, now), Results(cleaned, reset, inactive, errors))
  }

  /** The warning after a run. */
  predicate Warned(r: Results)
  {
    r.errors > 0
  }

  /**
   * `errors` counts the subtasks that threw, so it is at most 3, and the
   * warning is logged exactly when one threw.
   */
  lemma ErrorsCountFailedSubtasks(m: Sessions.SessionMap, users: Users.UserMap, now: int, f: Faults)
    requires Sessions.MapValid(m)
    ensures var r := Maintained(m, users, now, f).1;
      r.errors == |FailedTasks(f)| && r.errors <= 3 && (Warned(r) <==> FailedTasks(f) != {})
  {
    var a := if f.cleanupFails then {CleanupTask} else {};
    var b := if f.stuckReset.None? then {ResetTask} else {};
    var c := if f.inactiveFails then {InactiveTask} else {};
    assert a !! b && (a + b) !! c;
  }

  /**
   * A subtask that throws skips none of the others: each subtask's effect
   * and counter depend only on whether that subtask itself throws.
   */
  lemma SubtasksIndependent(m: Sessions.SessionMap, users: Users.UserMap, now: int, f: Faults, g: Faults)
    requires Sessions.MapValid(m)
    ensures f.cleanupFails == g.cleanupFails ==>
      Maintained(m, users, now, f).0 == Maintained(m, users, now, g).0
      && Maintained(m, users, now, f).1.expiredSessionsCleaned == Maintained(m, users, now, g).1.expiredSessionsCleaned
    ensures f.stuckReset == g.stuckReset ==>
      Maintained(m, users, now, f).1.stuckSessionsReset == Maintained(m, users, now, g).1.stuckSessionsReset
    ensures f.inactiveFails == g.inactiveFails ==>
      Maintained(m, users, now, f).1.inactiveUsersFound == Maintained(m, users, now, g).1.inactiveUsersFound
  {
  }

  /**
   * The counters of a run: the cleanup deactivates exactly the expired
   * sessions it counts, and `inactiveUsersFound` is the number of users
   * inactive for 30 days.
   */
  lemma RunCounters(m: Sessions.SessionMap, users: Users.UserMap, now: int, f: Faults)
    requires Sessions.MapValid(m)
    ensures var (m', r) := Maintained(m, users, now, f);
      && (!f.cleanupFails ==> r.expiredSessionsCleaned + |Sessions.ActiveIds(m')| == |Sessions.ActiveIds(m)|)
      && (f.cleanupFails ==> m' == m && r.expiredSessionsCleaned == 0)
      && (!f.inactiveFails ==>
            r.inactiveUsersFound == |set id | id in users && users[id].lastActivity < now - 30 * DayMs && users[id].isActive|)
      && m'.Keys == m.Keys
  {
    Sessions.CleanupContract(m, now);
    assert Users.InactiveCutoff(now, UserInactivityDays) == now - 30 * DayMs;
    assert Users.InactiveUsers(users, now, UserInactivityDays)
        == set id | id in users && users[id].lastActivity < now - 30 * DayMs && users[id].isActive;
  }

  /**
   * `resetStuckSessions` is not defined by the session service, so calling
   * it throws: every run counts at least one error and logs the warning.
   */
  lemma MissingResetAlwaysWarns(m: Sessions.SessionMap, users: Users.UserMap, now: int, f: Faults)
    requires f.stuckReset.None?
    requires Sessions.MapValid(m)
    ensures Warned(Maintained(m, users, now, f).1) && Maintained(m, users, now, f).1.stuckSessionsReset == 0
  {
  }

  /** `getStatus()`. */
  datatype Status = Status(isRunning: bool, nextRun: Option<int>)

  /** The status for the interval handle `interval`. */
  function StatusOf(interval: Option<nat>, now: int): Status
  {
    Status(interval.Some?, if interval.Some? then Some(now + CleanupInterval) else None)
  }

  /** Running exactly while a handle is set, and then the next run is one interval away. */
  lemma StatusContract(interval: Option<nat>, now: int)
    ensures StatusOf(interval, now).isRunning <==> interval.Some?
    ensures StatusOf(interval, now).nextRun.Some? <==> interval.Some?
    ensures interval.Some? ==> StatusOf(interval, now).nextRun.value - now == 30 * 60 * 1000
  {
  }

  /** `getHealthMetrics()`: the counts gathered in parallel; any failure is reported as one error. */
  datatype HealthMetrics = HealthMetrics(activeSessions: nat, stuckSessions: nat, inactiveUsers: nat, maintenanceStatus: Status,
                                         timestamp: int)

  const HealthMetricsFailed: string := "Failed to get health metrics"

  /**
   * The metrics for the given collections; `stuck` is the answer of
   * `getStuckSessions` and `statsFail` whether `getSystemStats` throws.
   */
  function Health(m: Sessions.SessionMap, users: Users.UserMap, interval: Option<nat>, now: int,
                  stuck: Option<seq<Sessions.Session>>, statsFail: bool): Result<HealthMetrics>
  {
    if stuck.None? || statsFail then Err(HealthMetricsFailed)
    else Ok(HealthMetrics(|Sessions.ActiveIds(m)|, |stuck.value|,
                          |Users.InactiveUsers(users, now, HealthInactivityDays)|, StatusOf(interval, now), now))
  }

  /** The metrics fail exactly when one of the lookups that can fail does, and then with one message. */
  lemma HealthContract(m: Sessions.SessionMap, users: Users.UserMap, interval: Option<nat>, now: int,
                       stuck: Option<seq<Sessions.Session>>, statsFail: bool)
    ensures var h := Health(m, users, interval, now, stuck, statsFail);
      && (h.Err? <==> stuck.None? || statsFail)
      && (h.Err? ==> h.message == "Failed to get health metrics")
      && (h.Ok? ==> h.value.maintenanceStatus.isRunning == interval.Some?
                    && h.value.inactiveUsers == |Users.InactiveUsers(users, now, 7)|)
  {
  }

  /** The static state of the service: the interval handle. */
  class MaintenanceService {
    var interval: Option<nat>

    constructor ()
      ensures interval.None?
    {
      interval := None;
    }

    /** `performMaintenance`: the three subtasks one after another, each in its own try block. */
    method PerformMaintenance(sessions: Sessions.SessionStore, users: Users.UserStore, now: int, f: Faults)
      returns (results: Results, warned: bool)
      requires sessions.Valid() && users.Valid()
      modifies sessions
      ensures sessions.Valid()
      ensures (sessions.sessions, results) == Maintained(old(sessions.sessions), users.users, now, f)
      ensures warned == Warned(results)
    {
      var cleaned: nat, reset: nat, inactive: nat, errors: nat := 0, 0, 0, 0;
      if f.cleanupFails {
        errors := errors + 1;
      } else {
        cleaned := sessions.CleanupExpiredSessions(now);
      }
      if f.stuckReset.None? {
        errors := errors + 1;
      } else {
        reset := f.stuckReset.value;
      }
      if f.inactiveFails {
        errors := errors + 1;
      } else {
        var found := users.GetInactiveUsers(now, UserInactivityDays);
        inactive := |found|;
      }
      results := Results(cleaned, reset, inactive, errors);
      warned := errors > 0;
    }

    /**
     * `startMaintenance`: nothing when a handle is already set; otherwise
     * the handle is stored and a first run made, whose results are returned.
     */
    method StartMaintenance(sessions: Sessions.SessionStore, users: Users.UserStore, handle: nat, now: int, f: Faults)
      returns (first: Option<Results>)
      requires sessions.Valid() && users.Valid()
      modifies this, sessions
      ensures sessions.Valid()
      ensures old(interval).Some? ==> first.None? && interval == old(interval) && sessions.sessions == old(sessions.sessions)
      ensures old(interval).None? ==>
        && interval == Some(handle)
        && first.Some? && (sessions.sessions, first.value) == Maintained(old(sessions.sessions), users.users, now, f)
    {
      if interval.Some? {
        return None;
      }
      interval := Some(handle);
      var results, _ := PerformMaintenance(sessions, users, now, f);
      first := Some(results);
    }

    /** `stopMaintenance`: the handle is cleared; nothing happens when none is set. */
    method StopMaintenance()
      modifies this
      ensures interval.None?
    {
      if interval.Some? {
        interval := None;
      }
    }

    /** `getStatus()`. */
    method GetStatus(now: int) returns (status: Status)
      ensures status == StatusOf(interval, now)
      ensures status.isRunning <==> interval.Some?
    {
      status := Status(interval.Some?, if interval.Some? then Some(now + CleanupInterval) else None);
    }

    /** `forceMaintenance`: one run, whether or not the service is started. */
    method ForceMaintenance(sessions: Sessions.SessionStore, users: Users.UserStore, now: int, f: Faults)
      returns (results: Results)
      requires sessions.Valid() && users.Valid()
      modifies sessions
      ensures sessions.Valid()
      ensures (sessions.sessions, results) == Maintained(old(sessions.sessions), users.users, now, f)
    {
      var warned;
      results, warned := PerformMaintenance(sessions, users, now, f);
    }

    /** `getHealthMetrics()`. */
    method GetHealthMetrics(sessions: Sessions.SessionStore, users: Users.UserStore, now: int,
                            stuck: Option<seq<Sessions.Session>>, statsFail: bool)
      returns (res: Result<HealthMetrics>)
      requires sessions.Valid() && users.Valid()
      ensures res == Health(sessions.sessions, users.users, interval, now, stuck, statsFail)
    {
      var active := sessions.GetActiveSessionsCount();
      var inactive := users.GetInactiveUsers(now, HealthInactivityDays);
      if stuck.None? || statsFail {
        return Err(HealthMetricsFailed);
      }
      var status := GetStatus(now);
      res := Ok(HealthMetrics(active, |stuck.value|, |inactive|, status, now));
    }
  }
}
