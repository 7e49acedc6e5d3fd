/**
 * The pending-withdrawal checker (server/auto-check-withdrawals.ts): the
 * withdrawals of `default-user` still pending or processing are verified
 * with the provider one after another, and each check is reported.
 *
 * The provider's answer for a reference is the function parameter
 * `answer`; every check is stamped with the same `now` (the one-second
 * pause between checks is not modelled). The console lines become the
 * reports returned.
 */
module AutoCheck {
  import opened Common
  import opened Withdrawals

  /** The console line for one withdrawal. */
  datatype Report =
    | Changed(reference: string, from: string, to: string)
    | Unchanged(reference: string, status: string)
    | CheckFailed(reference: string, message: string)

  /** The filter of the pending list. */
  predicate Rechecked(w: Withdrawal)
  {
    w.status == Pending || w.status == Processing
  }

  /** The list checked, from the fetched history. */
  function PendingOf(history: seq<Withdrawal>): (r: seq<Withdrawal>)
  {
    Filter(history, Rechecked)
  }

  /**
   * One check: `verifyWithdrawal` on the reference, then the report. The
   * status compared is the one in the fetched list, not the updated record.
   */
  function CheckOne(b: Book, w: Withdrawal, answer: string -> Result<VerifyResponse>, now: int): (r: (Book, Report))
    requires BookValid(b)
    ensures BookValid(r.0)
  {
    var (b1, res) := Verify(b, w.reference, answer(w.reference), now);
    var report :=
      if res.Err? then CheckFailed(w.reference, res.message)
      else if Truthy(res.value.status) && res.value.status.value != w.status then Changed(w.reference, w.status, res.value.status.value)
      else Unchanged(w.reference, w.status);
    (b1, report)
  }

  /** The checks of `ws` in order: the collection afterwards and the reports. */
  function CheckAll(b: Book, ws: seq<Withdrawal>, answer: string -> Result<VerifyResponse>, now: int): (r: (Book, seq<Report>))
    requires BookValid(b)
    ensures BookValid(r.0)
  {
    if ws == [] then (b, [])
    else
      var (b1, reports) := CheckAll(b, ws[..|ws| - 1], answer, now);
      var (b2, report) := CheckOne(b1, ws[|ws| - 1], answer, now);
      (b2, reports + [report])
  }

  /** The reference a report is about. */
  function ReportRef(r: Report): string
  {
    match r
      case Changed(reference, _, _) => reference
      case Unchanged(reference, _) => reference
      case CheckFailed(reference, _) => reference
  }

  /**
   * The pending list holds exactly the Pending or Processing entries of the
   * fetched history, newest first; the history is the 10 newest of
   * `default-user`, so nobody else's withdrawals are checked.
   */
  lemma {:induction false} PendingContract(b: Book)
    requires BookValid(b)
    ensures var p := PendingOf(History(b, DefaultUser));
      && (forall w :: w in p <==> w in History(b, DefaultUser) && Rechecked(w))
      && (forall w :: w in p ==> w.userId == "default-user" && w.reference in b.byRef && b.byRef[w.reference] == w)
      && NewestFirstIn(b.order, p)
      && |p| <= 10
  {
    HistoryContract(b, DefaultUser);
    FilterKeepsNewestFirst(b.order, History(b, DefaultUser), Rechecked);
  }

  /** A report is a change exactly when the provider answered a status other than the listed one and the save went through. */
  lemma CheckOneContract(b: Book, w: Withdrawal, answer: string -> Result<VerifyResponse>, now: int)
    requires BookValid(b)
    ensures var (b', report) := CheckOne(b, w, answer, now); var res := Verify(b, w.reference, answer(w.reference), now).1;
      && ReportRef(report) == w.reference
      && (report.Changed? <==> res.Ok? && Truthy(answer(w.reference).value.status)
                                && answer(w.reference).value.status.value != w.status)
      && (report.Changed? ==> report.from == w.status && report.to == answer(w.reference).value.status.value)
      && (report.CheckFailed? <==> res.Err?)
      && (answer(w.reference).Err? ==> report.CheckFailed? && b' == b)
  {
    VerifyContract(b, w.reference, answer(w.reference), now);
  }

  /** One check changes at most the checked record, and adds or removes none. */
  lemma CheckOneFrame(b: Book, w: Withdrawal, answer: string -> Result<VerifyResponse>, now: int)
    requires BookValid(b)
    ensures var b' := CheckOne(b, w, answer, now).0;
      && b'.order == b.order && b'.byRef.Keys == b.byRef.Keys
      && (forall r :: r in b.byRef && r != w.reference ==> b'.byRef[r] == b.byRef[r])
  {
    VerifyContract(b, w.reference, answer(w.reference), now);
  }

  /**
   * Every listed withdrawal is checked exactly once, in list order: a
   * failed check does not stop the rest.
   */
  lemma {:induction false} CheckAllReports(b: Book, ws: seq<Withdrawal>, answer: string -> Result<VerifyResponse>, now: int)
    requires BookValid(b)
    ensures var reports := CheckAll(b, ws, answer, now).1;
      && |reports| == |ws|
      && (forall i :: 0 <= i < |ws| ==> ReportRef(reports[i]) == ws[i].reference)
  {
    if ws != [] {
      var init, w := ws[..|ws| - 1], ws[|ws| - 1];
      CheckAllReports(b, init, answer, now);
      var (b1, reports) := CheckAll(b, init, answer, now);
      var report := CheckOne(b1, w, answer, now).1;
      assert ReportRef(report) == w.reference;
      assert CheckAll(b, ws, answer, now).1 == reports + [report];
      assert |reports| == |init|;
      forall i | 0 <= i < |ws| ensures ReportRef((reports + [report])[i]) == ws[i].reference {
        if i < |init| {
          assert (reports + [report])[i] == reports[i];
          assert ws[i] == init[i];
        } else {
          assert (reports + [report])[i] == report;
        }
      }
    }
  }

  /** No withdrawal of `ws` has the reference `r`. */
  predicate Unlisted(ws: seq<Withdrawal>, r: string)
  {
    forall i :: 0 <= i < |ws| ==> ws[i].reference != r
  }

  /** The checks touch no record outside the list, and add or remove none. */
  lemma {:induction false} CheckAllFrame(b: Book, ws: seq<Withdrawal>, answer: string -> Result<VerifyResponse>, now: int)
    requires BookValid(b)
    ensures var b' := CheckAll(b, ws, answer, now).0;
      && b'.order == b.order && b'.byRef.Keys == b.byRef.Keys
      && (forall r :: r in b.byRef && Unlisted(ws, r) ==> b'.byRef[r] == b.byRef[r])
  {
    if ws != [] {
      var init, w := ws[..|ws| - 1], ws[|ws| - 1];
      CheckAllFrame(b, init, answer, now);
      var b1 := CheckAll(b, init, answer, now).0;
      var b2 := CheckOne(b1, w, answer, now).0;
      CheckOneFrame(b1, w, answer, now);
      assert CheckAll(b, ws, answer, now).0 == b2;
      forall r | r in b.byRef && Unlisted(ws, r) ensures b2.byRef[r] == b.byRef[r] {
        UnlistedInit(ws, r);
      }
    }
  }

  /** A reference absent from a list is absent from its prefix and differs from its last entry. */
  lemma UnlistedInit(ws: seq<Withdrawal>, r: string)
    requires ws != [] && Unlisted(ws, r)
    ensures Unlisted(ws[..|ws| - 1], r) && ws[|ws| - 1].reference != r
  {
    var init := ws[..|ws| - 1];
    forall i | 0 <= i < |init| ensures init[i].reference != r {
      assert init[i] == ws[i];
    }
  }

  /** An empty list makes no call and changes nothing. */
  lemma NothingPendingNothingChecked(b: Book, answer: string -> Result<VerifyResponse>, now: int)
    requires BookValid(b)
    requires forall w :: w in History(b, DefaultUser) ==> !Rechecked(w)
    ensures PendingOf(History(b, DefaultUser)) == []
    ensures CheckAll(b, PendingOf(History(b, DefaultUser)), answer, now) == (b, [])
  {
    NoneRechecked(History(b, DefaultUser));
  }

  /** A history without pending or processing entries gives an empty list. */
  lemma {:induction false} NoneRechecked(h: seq<Withdrawal>)
    requires forall w :: w in h ==> !Rechecked(w)
    ensures PendingOf(h) == []
  {
    if h != [] {
      assert h[0] in h;
      NoneRechecked(h[1..]);
    }
  }

  /** Adding one more check extends the fold by one step. */
  lemma CheckAllSnoc(b: Book, ws: seq<Withdrawal>, w: Withdrawal, answer: string -> Result<VerifyResponse>, now: int)
    requires BookValid(b)
    ensures var (b1, reports) := CheckAll(b, ws, answer, now);
      var (b2, report) := CheckOne(b1, w, answer, now);
      CheckAll(b, ws + [w], answer, now) == (b2, reports + [report])
  {
    assert (ws + [w])[..|ws|] == ws;
  }

  /** The body of the loop: `verifyWithdrawal` on one listed withdrawal, then its console line. */
  method CheckWithdrawal(store: WithdrawalStore, w: Withdrawal, answer: string -> Result<VerifyResponse>, now: int)
    returns (report: Report)
    requires store.Valid()
    modifies store
    ensures store.Valid()
    ensures (store.Contents(), report) == CheckOne(old(store.Contents()), w, answer, now)
  {
    var result := store.VerifyWithdrawal(w.reference, answer(w.reference), now);
    if result.Err? {
      report := CheckFailed(w.reference, result.message);
    } else if Truthy(result.value.status) && result.value.status.value != w.status {
      report := Changed(w.reference, w.status, result.value.status.value);
    } else {
      report := Unchanged(w.reference, w.status);
    }
  }

  /**
   * `checkPendingWithdrawals` over the withdrawal collection:
   * `historyFails` is whether the history query throws (which the service
   * turns into an empty list).
   */
  method CheckPendingWithdrawals(store: WithdrawalStore, historyFails: bool,
                                 answer: string -> Result<VerifyResponse>, now: int)
    returns (reports: seq<Report>)
    requires store.Valid()
    modifies store
    ensures store.Valid()
    ensures var pending := if historyFails then [] else PendingOf(History(old(store.Contents()), DefaultUser));
      (store.Contents(), reports) == CheckAll(old(store.Contents()), pending, answer, now)
  {
    var withdrawals := store.GetWithdrawalHistory(DefaultUser, historyFails);
    var pending := PendingOf(withdrawals);
    if |pending| == 0 {
      return [];
    }
    ghost var start := store.Contents();
    reports := [];
    var i := 0;
    while i < |pending|
      invariant 0 <= i <= |pending|
      invariant store.Valid()
      invariant (store.Contents(), reports) == CheckAll(start, pending[..i], answer, now)
    {
      var w := pending[i];
      CheckAllSnoc(start, pending[..i], w, answer, now);
      PrefixSnoc(pending, i);
      var report := CheckWithdrawal(store, w, answer, now);
      reports := reports + [report];
      i := i + 1;
    }
    assert pending[..i] == pending;
  }
}
