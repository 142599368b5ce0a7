/**
 * Bill reminders (services/notificationService.ts): a poll over the stored
 * bills that raises one alert per unpaid, unsnoozed bill whose due instant
 * has passed, and the permission request that switches reminders on.
 */
module Notifications {
  import opened Common
  import opened Js
  import opened Types
  import opened Aggregates
  import opened Bills
  import Store

  /** The time of day reminders assume for a bill without `dueTime`. */
  const ReminderSuffix: string := "T09:00:00"

  /** One day, in milliseconds. */
  const DayMillis: int := 24 * 60 * 60 * 1000

  datatype Notification = Notification(title: string, body: string)

  /** The settings patch a granted permission writes. */
  const EnablePatch: Record := map["notificationsEnabled" := Bool(true)]

  /** `now > due` for an unpaid bill that is not snoozed. */
  predicate Fires(p: Platform, now: int, b: Record) {
    !IsPaid(b) && !IsSnoozed(p, now, b) && Before(DueInstant(p, b, ReminderSuffix), now)
  }

  /** A due instant in the next 24 hours: the branch that sends nothing. */
  predicate Upcoming(p: Platform, now: int, b: Record) {
    var due := DueInstant(p, b, ReminderSuffix);
    due.Some? && 0 < due.value - now < DayMillis
  }

  /** The alert for an overdue bill. */
  function Alert(p: Platform, b: Record): Notification {
    Notification(
      "FocusPilot Alert: " + Text(p, Field(b, "payee")) + " Overdue",
      "Your payment of " + Text(p, Field(b, "amount")) + " " + Text(p, Field(b, "currency"))
        + " was due on " + Text(p, Field(b, "dueDate")) + ". Action required.")
  }

  /** The alerts one poll raises, in bill order. */
  function Reminders(p: Platform, now: int, bills: seq<Record>): seq<Notification> {
    if |bills| == 0 then []
    else
      var last := bills[|bills| - 1];
      Reminders(p, now, bills[..|bills| - 1]) + (if Fires(p, now, last) then [Alert(p, last)] else [])
  }

  /** The alerts of two bill lists in a row are the first list's alerts, then the second's. */
  lemma {:induction false} RemindersAppend(p: Platform, now: int, a: seq<Record>, b: seq<Record>)
    ensures Reminders(p, now, a + b) == Reminders(p, now, a) + Reminders(p, now, b)
    decreases |b|
  {
    if |b| == 0 {
      assert a + b == a;
    } else {
      var ab := a + b;
      assert ab[|ab| - 1] == b[|b| - 1];
      assert ab[..|ab| - 1] == a + b[..|b| - 1];
      RemindersAppend(p, now, a, b[..|b| - 1]);
    }
  }

  lemma RemindersSingle(p: Platform, now: int, b: Record)
    ensures Reminders(p, now, [b]) == if Fires(p, now, b) then [Alert(p, b)] else []
  {
    assert [b][..0] == [];
  }

  lemma RemindersSplit(p: Platform, now: int, bills: seq<Record>, k: nat)
    requires k <= |bills|
    ensures Reminders(p, now, bills) == Reminders(p, now, bills[..k]) + Reminders(p, now, bills[k..])
  {
    assert bills[..k] + bills[k..] == bills;
    RemindersAppend(p, now, bills[..k], bills[k..]);
  }

  /**
   * One alert per firing bill, in bill order: a single bill raises its
   * alert exactly when it fires, and the alerts of a split bill list are
   * the two halves' alerts joined. Hence every alert belongs to a firing
   * bill and every firing bill raises its alert.
   */
  lemma {:induction false} RemindersSpec(p: Platform, now: int, bills: seq<Record>)
    ensures forall b :: Reminders(p, now, [b]) == if Fires(p, now, b) then [Alert(p, b)] else []
    ensures forall k :: 0 <= k <= |bills| ==>
      Reminders(p, now, bills) == Reminders(p, now, bills[..k]) + Reminders(p, now, bills[k..])
    ensures |Reminders(p, now, bills)| == Count(bills, b => Fires(p, now, b))
    ensures forall n :: n in Reminders(p, now, bills) ==>
      exists j :: 0 <= j < |bills| && Fires(p, now, bills[j]) && n == Alert(p, bills[j])
    ensures forall j :: 0 <= j < |bills| && Fires(p, now, bills[j]) ==> Alert(p, bills[j]) in Reminders(p, now, bills)
  {
    forall b ensures Reminders(p, now, [b]) == if Fires(p, now, b) then [Alert(p, b)] else [] {
      RemindersSingle(p, now, b);
    }
    forall k | 0 <= k <= |bills|
      ensures Reminders(p, now, bills) == Reminders(p, now, bills[..k]) + Reminders(p, now, bills[k..])
    {
      RemindersSplit(p, now, bills, k);
    }
    RemindersFromFiring(p, now, bills);
  }

  lemma {:induction false} RemindersFromFiring(p: Platform, now: int, bills: seq<Record>)
    ensures |Reminders(p, now, bills)| == Count(bills, b => Fires(p, now, b))
    ensures forall n :: n in Reminders(p, now, bills) ==>
      exists j :: 0 <= j < |bills| && Fires(p, now, bills[j]) && n == Alert(p, bills[j])
    ensures forall j :: 0 <= j < |bills| && Fires(p, now, bills[j]) ==> Alert(p, bills[j]) in Reminders(p, now, bills)
    decreases |bills|
  {
    if |bills| > 0 {
      var init := bills[..|bills| - 1];
      var last := bills[|bills| - 1];
      RemindersFromFiring(p, now, init);
      assert bills == init + [last];
      CountAppend(init, [last], b => Fires(p, now, b));
      assert Count([last], b => Fires(p, now, b)) == if Fires(p, now, last) then 1 else 0 by {
        assert [last][1..] == [];
      }
      forall n | n in Reminders(p, now, bills)
        ensures exists j :: 0 <= j < |bills| && Fires(p, now, bills[j]) && n == Alert(p, bills[j])
      {
        if n in Reminders(p, now, init) {
          var j :| 0 <= j < |init| && Fires(p, now, init[j]) && n == Alert(p, init[j]);
          assert bills[j] == init[j];
        } else {
          assert Fires(p, now, bills[|bills| - 1]);
        }
      }
      forall j | 0 <= j < |bills| && Fires(p, now, bills[j]) ensures Alert(p, bills[j]) in Reminders(p, now, bills) {
        if j < |bills| - 1 {
          assert bills[j] == init[j];
        }
      }
    }
  }

  /** Paid and snoozed bills never raise an alert, nor do bills due in the next day. */
  lemma SilentBills(p: Platform, now: int, b: Record)
    ensures IsPaid(b) || IsSnoozed(p, now, b) || Upcoming(p, now, b) ==> !Fires(p, now, b)
  {
  }

  /**
   * A firing bill fires again at every later poll: nothing records that it
   * was already announced.
   */
  lemma KeepsFiring(p: Platform, b: Record, now: int, later: int)
    requires Fires(p, now, b) && now <= later
    ensures Fires(p, later, b)
  {
  }

  /** With an explicit due time the reminder fires exactly when the view shows the bill overdue. */
  lemma SameInstantAsView(p: Platform, now: int, b: Record)
    requires Truthy(Field(b, "dueTime"))
    ensures Fires(p, now, b) <==> ShownOverdue(p, now, b)
  {
  }

  /**
   * Without a due time the view counts from midnight and the reminder from
   * nine o'clock: in between the bill is shown overdue but raises no alert.
   */
  lemma MorningGap(p: Platform, now: int, b: Record, midnight: int, nine: int)
    requires !Truthy(Field(b, "dueTime")) && !IsPaid(b) && !IsSnoozed(p, now, b)
    requires p.parseInstant(Text(p, Field(b, "dueDate")) + MidnightSuffix) == Some(midnight)
    requires p.parseInstant(Text(p, Field(b, "dueDate")) + ReminderSuffix) == Some(nine)
    requires midnight < now <= nine
    ensures ShownOverdue(p, now, b) && !Fires(p, now, b)
  {
  }

  /** `checkReminders`: the alerts one poll sends; nothing when reminders are off. */
  method CheckReminders(store: Store.DataStore, p: Platform, now: int) returns (sent: seq<Notification>)
    ensures !Truthy(Field(store.Current().settings, "notificationsEnabled")) ==> sent == []
    ensures Truthy(Field(store.Current().settings, "notificationsEnabled")) ==>
      sent == Reminders(p, now, store.Current().bills)
  {
    var db := store.Get();
    if !Truthy(Field(db.settings, "notificationsEnabled")) {
      return [];
    }
    sent := [];
    var i := 0;
    while i < |db.bills|
      invariant 0 <= i <= |db.bills|
      invariant sent == Reminders(p, now, db.bills[..i])
    {
      var bill := db.bills[i];
      assert db.bills[..i + 1][..i] == db.bills[..i];
      i := i + 1;
      if Field(bill, "status") == Str("paid") {
        continue;
      }
      var due := DueInstant(p, bill, ReminderSuffix);
      if IsSnoozed(p, now, bill) {
        continue;
      }
      if Before(due, now) {
        sent := sent + [Alert(p, bill)];
      }
    }
    assert db.bills[..i] == db.bills;
  }

  /** `sendNotification`: the browser shows alerts only under a granted permission. */
  function Displayed(permission: string, sent: seq<Notification>): (shown: seq<Notification>)
    ensures permission == "granted" ==> shown == sent
    ensures permission != "granted" ==> shown == []
  {
    if permission == "granted" then sent else []
  }

  /**
   * `requestNotificationPermission`: without notification support, or when
   * the user does not grant, nothing changes; a grant switches reminders on.
   */
  method RequestPermission(store: Store.DataStore, supported: bool, answer: string) returns (granted: bool)
    modifies store
    ensures granted <==> supported && answer == "granted"
    ensures granted ==>
      store.docs == Store.Stored(old(store.docs), store.Key(), Store.MergeSettings(old(store.Current()), EnablePatch))
    ensures !granted ==> store.docs == old(store.docs)
  {
    if !supported {
      return false;
    }
    if answer == "granted" {
      store.UpdateSettings(EnablePatch);
      return true;
    }
    return false;
  }

  /** After a grant, the signed-in user's stored settings have reminders on. */
  lemma GrantEnablesReminders(docs: map<string, Store.Blob>, key: string, d: Store.Document, initial: Store.Document)
    ensures var e := Store.Fetch(Some(key), Store.Stored(docs, Some(key), Store.MergeSettings(d, EnablePatch)), initial);
      Truthy(Field(e.settings, "notificationsEnabled")) && e.bills == d.bills
  {
    Store.SavedIsFetched(docs, key, Store.MergeSettings(d, EnablePatch), initial);
    assert "notificationsEnabled" in EnablePatch;
  }
}
