/**
 * The dashboard summary (components/views/Dashboard.tsx): today's open
 * tasks (due today or undated), the first five of them, the number of bill
 * alerts, and the number of receipts.
 *
 * The alert count as written filters on the stored status "overdue". The
 * bills view derives that status on every read and never saves it, and the
 * application's own writes store "scheduled" or "paid", so a past-due bill
 * is not counted.
 * `StoredOverdueAlerts`, which the summary uses, keeps the code as written;
 * `PastDueMissed` shows the gap; `OverdueAlerts` counts the bills the bills
 * view shows as overdue, and `CorrectedSummary` uses it.
 */
module Dashboard {
  import opened Common
  import opened Js
  import opened Types
  import opened Aggregates
  import Bills
  import Store

  /** `new Date().toISOString().split('T')[0]`. */
  function Today(p: Platform, now: int): string {
    DatePart(p.formatInstant(now))
  }

  /** `t.status !== 'done' && (!t.dueAt || t.dueAt.startsWith(today))`. */
  predicate DueToday(today: string, t: Record) {
    && Field(t, "status") != Str(StatusName(Done))
    && (!Truthy(Field(t, "dueAt")) || (Field(t, "dueAt").Str? && StartsWith(Field(t, "dueAt").s, today)))
  }

  function DueTasks(tasks: seq<Record>, today: string): seq<Record> {
    Filter(tasks, t => DueToday(today, t))
  }

  /** `dueTasks.slice(0, 5)`. */
  function Focus(due: seq<Record>): (r: seq<Record>)
    ensures |r| == if |due| < 5 then |due| else 5
    ensures r == due[..|r|]
  {
    if |due| < 5 then due else due[..5]
  }

  /**
   * The task panel lists open tasks only, each either undated or dated
   * today, and lists every such task, in store order.
   */
  lemma DueTasksSpec(tasks: seq<Record>, today: string)
    ensures forall t :: t in DueTasks(tasks, today) ==> t in tasks && Field(t, "status") != Str("done")
    ensures forall t :: t in DueTasks(tasks, today) ==>
      !Truthy(Field(t, "dueAt")) || StartsWith(Field(t, "dueAt").s, today)
    ensures forall j :: 0 <= j < |tasks| && DueToday(today, tasks[j]) ==> tasks[j] in DueTasks(tasks, today)
    ensures forall k :: 0 <= k <= |tasks| ==>
      DueTasks(tasks, today) == DueTasks(tasks[..k], today) + DueTasks(tasks[k..], today)
  {
    forall j | 0 <= j < |tasks| && DueToday(today, tasks[j]) ensures tasks[j] in DueTasks(tasks, today) {
      FilterKeeps(tasks, t => DueToday(today, t), j);
    }
    forall k | 0 <= k <= |tasks|
      ensures DueTasks(tasks, today) == DueTasks(tasks[..k], today) + DueTasks(tasks[k..], today)
    {
      DueTasksSplit(tasks, today, k);
    }
  }

  lemma DueTasksSplit(tasks: seq<Record>, today: string, k: nat)
    requires k <= |tasks|
    ensures DueTasks(tasks, today) == DueTasks(tasks[..k], today) + DueTasks(tasks[k..], today)
  {
    assert tasks[..k] + tasks[k..] == tasks;
    FilterAppend(tasks[..k], tasks[k..], t => DueToday(today, t));
  }

  /** A task due at a time on today's date is in the panel, whatever the time. */
  lemma TaskDueLaterToday(p: Platform, now: int, t: Record, time: string)
    requires Field(t, "status") != Str("done")
    requires Field(t, "dueAt") == Str(Today(p, now) + "T" + time)
    ensures DueToday(Today(p, now), t)
  {
    var d := Today(p, now);
    DatePartSpec(p.formatInstant(now));
    assert (d + "T" + time)[..|d|] == d;
  }

  // ---------------------------------------------------------------- bill alerts

  predicate StoredOverdue(b: Record) {
    Field(b, "status") == Str(BillStatusName(Overdue))
  }

  /** The alert list as written: exactly the bills whose stored status is "overdue". */
  function StoredOverdueAlerts(bills: seq<Record>): (r: seq<Record>)
    ensures forall x :: x in r ==> x in bills && StoredOverdue(x)
    ensures forall j :: 0 <= j < |bills| && StoredOverdue(bills[j]) ==> bills[j] in r
  {
    assert forall j :: 0 <= j < |bills| && StoredOverdue(bills[j]) ==> bills[j] in Filter(bills, StoredOverdue) by {
      forall j | 0 <= j < |bills| && StoredOverdue(bills[j]) ensures bills[j] in Filter(bills, StoredOverdue) {
        FilterKeeps(bills, StoredOverdue, j);
      }
    }
    Filter(bills, StoredOverdue)
  }

  /**
   * A bill that is past due, unpaid and unsnoozed but stored as
   * "scheduled" (as the application stores it) is shown overdue by the
   * bills view and still raises no alert on the dashboard.
   */
  lemma PastDueMissed(p: Platform, now: int, b: Record)
    requires Field(b, "status") == Str("scheduled")
    requires Before(Bills.DueInstant(p, b, Bills.MidnightSuffix), now) && !Bills.IsSnoozed(p, now, b)
    ensures Bills.ShownOverdue(p, now, b)
    ensures StoredOverdueAlerts([b]) == []
    ensures OverdueAlerts(p, now, [b]) == [Bills.Derive(p, now, b)]
  {
    assert [b][1..] == [];
  }

  /** The alert list: bills the bills view shows as overdue at `now`. */
  function OverdueAlerts(p: Platform, now: int, bills: seq<Record>): seq<Record> {
    Filter(Bills.DeriveAll(p, now, bills), StoredOverdue)
  }

  /**
   * The corrected alerts are exactly the bills shown overdue: each is the
   * derived form of a stored bill that is past due or stored overdue, and
   * each such bill is counted; paid bills never are.
   */
  lemma OverdueAlertsSpec(p: Platform, now: int, bills: seq<Record>)
    ensures forall x :: x in OverdueAlerts(p, now, bills) ==>
      exists j :: 0 <= j < |bills| && x == Bills.Derive(p, now, bills[j])
        && (Bills.ShownOverdue(p, now, bills[j]) || StoredOverdue(bills[j]))
    ensures forall j :: 0 <= j < |bills| && Bills.ShownOverdue(p, now, bills[j]) ==>
      Bills.Derive(p, now, bills[j]) in OverdueAlerts(p, now, bills)
    ensures forall x :: x in OverdueAlerts(p, now, bills) ==> !Bills.IsPaid(x)
  {
    var d := Bills.DeriveAll(p, now, bills);
    forall x | x in OverdueAlerts(p, now, bills)
      ensures exists j :: (0 <= j < |bills| && x == Bills.Derive(p, now, bills[j])
                           && (Bills.ShownOverdue(p, now, bills[j]) || StoredOverdue(bills[j])))
    {
      var k :| 0 <= k < |OverdueAlerts(p, now, bills)| && OverdueAlerts(p, now, bills)[k] == x;
      var j :| 0 <= j < |d| && d[j] == x;
      Bills.DeriveSpec(p, now, bills[j]);
    }
    forall j | 0 <= j < |bills| && Bills.ShownOverdue(p, now, bills[j])
      ensures Bills.Derive(p, now, bills[j]) in OverdueAlerts(p, now, bills)
    {
      FilterKeeps(d, StoredOverdue, j);
    }
  }

  /** The corrected count includes every bill the written count includes that is not paid. */
  lemma OverdueAlertsExtendStored(p: Platform, now: int, bills: seq<Record>, j: nat)
    requires j < |bills| && StoredOverdue(bills[j])
    ensures Bills.Derive(p, now, bills[j]) == bills[j]
    ensures bills[j] in OverdueAlerts(p, now, bills)
  {
    var d := Bills.DeriveAll(p, now, bills);
    FilterKeeps(d, StoredOverdue, j);
  }

  datatype Summary = Summary(focus: seq<Record>, pending: nat, alerts: nat, archives: nat)

  /** What the dashboard shows for a document at `now`, with the alert count as written. */
  function Summarize(p: Platform, now: int, db: Store.Document): (s: Summary)
    ensures s.pending == |DueTasks(db.tasks, Today(p, now))|
    ensures s.focus == Focus(DueTasks(db.tasks, Today(p, now)))
    ensures s.alerts == |StoredOverdueAlerts(db.bills)| && s.alerts <= |db.bills|
    ensures s.archives == |db.receipts|
  {
    var due := DueTasks(db.tasks, Today(p, now));
    Summary(Focus(due), |due|, |StoredOverdueAlerts(db.bills)|, |db.receipts|)
  }

  /**
   * The summary with the corrected alert count: it differs from the one
   * as written only in the alerts, which count at least as many bills.
   */
  function CorrectedSummary(p: Platform, now: int, db: Store.Document): (s: Summary)
    ensures s.alerts == |OverdueAlerts(p, now, db.bills)| && s.alerts <= |db.bills|
    ensures s.focus == Summarize(p, now, db).focus && s.pending == Summarize(p, now, db).pending
    ensures s.archives == Summarize(p, now, db).archives
  {
    Summarize(p, now, db).(alerts := |OverdueAlerts(p, now, db.bills)|)
  }

  /** The dashboard's data load. */
  method Load(store: Store.DataStore, p: Platform, now: int) returns (s: Summary)
    ensures s == Summarize(p, now, store.Current())
  {
    var db := store.Get();
    s := Summarize(p, now, db);
  }
}
