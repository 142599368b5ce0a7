/**
 * The bills view (components/views/BillsView.tsx): the overdue status is
 * derived at read time from the due instant, the snooze window and the
 * stored status; the list is ordered by due date; paying and snoozing are
 * partial updates of the stored bill; the header shows the total still due.
 */
module Bills {
  import opened Common
  import opened Js
  import opened Types
  import opened Aggregates
  import opened Sorting
  import Store

  /** The time of day the view assumes for a bill without `dueTime`. */
  const MidnightSuffix: string := "T00:00:00"

  /** Four hours, in milliseconds. */
  const SnoozeMillis: int := 4 * 60 * 60 * 1000

  /** `bill.dueDate + (bill.dueTime ? 'T' + bill.dueTime : fallback)`. */
  function DueText(p: Platform, b: Record, fallback: string): string {
    Text(p, Field(b, "dueDate"))
      + (if Truthy(Field(b, "dueTime")) then "T" + Text(p, Field(b, "dueTime")) else fallback)
  }

  /** The due instant, `None` when the text is an Invalid Date. */
  function DueInstant(p: Platform, b: Record, fallback: string): Option<int> {
    p.parseInstant(DueText(p, b, fallback))
  }

  /** `bill.snoozedUntil && new Date(bill.snoozedUntil) > now`. */
  predicate IsSnoozed(p: Platform, now: int, b: Record) {
    Truthy(Field(b, "snoozedUntil")) && After(p.parseInstant(Text(p, Field(b, "snoozedUntil"))), now)
  }

  predicate IsPaid(b: Record) {
    Field(b, "status") == Str(BillStatusName(Paid))
  }

  /** The condition under which the view shows a bill as overdue. */
  predicate ShownOverdue(p: Platform, now: int, b: Record) {
    !IsPaid(b) && Before(DueInstant(p, b, MidnightSuffix), now) && !IsSnoozed(p, now, b)
  }

  /** The bill as the view shows it at `now`; the stored bill is not changed. */
  function Derive(p: Platform, now: int, b: Record): Record {
    if ShownOverdue(p, now, b) then b["status" := Str(BillStatusName(Overdue))] else b
  }

  function DeriveAll(p: Platform, now: int, bills: seq<Record>): (r: seq<Record>)
    ensures |r| == |bills|
    ensures forall i :: 0 <= i < |bills| ==> r[i] == Derive(p, now, bills[i])
  {
    seq(|bills|, i requires 0 <= i < |bills| => Derive(p, now, bills[i]))
  }

  /**
   * The derivation touches only the status, never a paid bill, shows
   * "overdue" exactly for past-due unsnoozed bills (or bills already stored
   * as overdue) and keeps a well-formed bill well-formed.
   */
  lemma DeriveSpec(p: Platform, now: int, b: Record)
    ensures forall k :: k != "status" ==> Field(Derive(p, now, b), k) == Field(b, k)
    ensures IsPaid(b) ==> Derive(p, now, b) == b
    ensures Field(Derive(p, now, b), "status") == Str("overdue")
      <==> ShownOverdue(p, now, b) || Field(b, "status") == Str("overdue")
    ensures IsPaid(Derive(p, now, b)) <==> IsPaid(b)
    ensures IsBill(b) ==> IsBill(Derive(p, now, b))
  {
  }

  /**
   * An unpaid bill not stored as overdue is shown overdue iff its due
   * instant is valid and strictly past, and no snooze is running.
   */
  lemma OverdueIffPastDue(p: Platform, now: int, b: Record)
    requires !IsPaid(b) && Field(b, "status") != Str("overdue")
    ensures (Field(Derive(p, now, b), "status") == Str("overdue"))
      <==> (DueInstant(p, b, MidnightSuffix).Some? && now > DueInstant(p, b, MidnightSuffix).value
            && !IsSnoozed(p, now, b))
  {
  }

  // ---------------------------------------------------------------- ordering

  /** The sort key: the due date text. */
  function DueKey(b: Record): string {
    if Field(b, "dueDate").Str? then Field(b, "dueDate").s else ""
  }

  /** `a.dueDate <= b.dueDate`, the order the comparator establishes. */
  predicate DueLe(a: Record, b: Record) {
    LexLe(DueKey(a), DueKey(b))
  }

  lemma DueLeIsTotalPreorder()
    ensures TotalPreorder(DueLe)
  {
    LexLeTotalOrder();
  }

  /** `loadBills`: the stored bills, derived, ordered by due date. */
  method LoadBills(store: Store.DataStore, p: Platform, now: int) returns (shown: seq<Record>)
    ensures multiset(shown) == multiset(DeriveAll(p, now, store.Current().bills))
    ensures SortedBy(shown, DueLe)
  {
    var db := store.Get();
    var derived := DeriveAll(p, now, db.bills);
    var a := new Record[|derived|](i requires 0 <= i < |derived| => derived[i]);
    assert a[..] == derived;
    DueLeIsTotalPreorder();
    SortBy(a, DueLe);
    shown := a[..];
  }

  /** Each shown bill is the derivation of a stored one, and each stored one is shown. */
  lemma ShownAreDerived(p: Platform, now: int, bills: seq<Record>, shown: seq<Record>)
    requires multiset(shown) == multiset(DeriveAll(p, now, bills))
    ensures |shown| == |bills|
    ensures forall i :: 0 <= i < |shown| ==> exists j :: 0 <= j < |bills| && shown[i] == Derive(p, now, bills[j])
    ensures forall j :: 0 <= j < |bills| ==> Derive(p, now, bills[j]) in shown
  {
    var d := DeriveAll(p, now, bills);
    assert |shown| == |multiset(shown)| == |multiset(d)| == |d|;
    forall i | 0 <= i < |shown| ensures exists j :: 0 <= j < |bills| && shown[i] == Derive(p, now, bills[j]) {
      assert shown[i] in multiset(d);
      var j :| 0 <= j < |d| && d[j] == shown[i];
    }
    forall j | 0 <= j < |bills| ensures Derive(p, now, bills[j]) in shown {
      assert d[j] in multiset(shown);
    }
  }

  // ---------------------------------------------------------------- total due

  /**
   * What `sum + v` adds for a numeric `sum`: a number, `null` as 0 and a
   * boolean as 0 or 1; `None` when the sum stops being a number (`NaN` for
   * `undefined`, a text for a string, array or object).
   */
  function AmountOf(v: Value): Option<real> {
    match v
    case Num(n) => Some(n)
    case Null => Some(0.0)
    case Bool(x) => Some(if x then 1.0 else 0.0)
    case _ => None
  }

  /** A bill leaves the header total a number: it is paid or its amount adds as one. */
  predicate Summable(b: Record) {
    IsPaid(b) || AmountOf(Field(b, "amount")).Some?
  }

  /** What a bill contributes to the header total. */
  function UnpaidAmount(b: Record): real {
    if !IsPaid(b) && AmountOf(Field(b, "amount")).Some? then AmountOf(Field(b, "amount")).value else 0.0
  }

  /**
   * `bills.filter(b => b.status !== 'paid').reduce((s, b) => s + b.amount, 0)`,
   * `None` when the result is not a number.
   */
  function TotalDue(bills: seq<Record>): Option<real> {
    if forall i :: 0 <= i < |bills| ==> Summable(bills[i]) then Some(Sum(bills, UnpaidAmount)) else None
  }

  /**
   * An unpaid bill without an amount makes the header total `NaN`, whatever
   * the other bills hold; a null amount counts as zero.
   */
  lemma MissingAmountIsNaN(bills: seq<Record>, j: nat)
    requires j < |bills| && !IsPaid(bills[j]) && "amount" !in bills[j]
    ensures TotalDue(bills).None?
    ensures TotalDue([map["status" := Str("scheduled"), "amount" := Null], map["status" := Str("scheduled"), "amount" := Num(5.0)]])
      == Some(5.0)
  {
    var two := [map["status" := Str("scheduled"), "amount" := Null], map["status" := Str("scheduled"), "amount" := Num(5.0)]];
    assert two[1..][1..] == [];
  }

  /** The header total does not depend on the display order or on the derivation. */
  lemma TotalDueIsStoredTotal(p: Platform, now: int, bills: seq<Record>, shown: seq<Record>)
    requires multiset(shown) == multiset(DeriveAll(p, now, bills))
    ensures TotalDue(shown) == TotalDue(bills)
  {
    var d := DeriveAll(p, now, bills);
    forall i | 0 <= i < |bills|
      ensures UnpaidAmount(d[i]) == UnpaidAmount(bills[i]) && (Summable(d[i]) <==> Summable(bills[i]))
    {
      DeriveSpec(p, now, bills[i]);
    }
    AllPermutation(shown, d, Summable);
    SumPermutation(shown, d, UnpaidAmount);
    SumPointwise(bills, d, UnpaidAmount);
  }

  // ---------------------------------------------------------------- actions

  /** The "Paid" button is offered for every unpaid bill. */
  predicate PayOffered(shown: Record) {
    !IsPaid(shown)
  }

  /** The "Snooze" button is offered for an unpaid bill shown as overdue. */
  predicate SnoozeOffered(shown: Record) {
    !IsPaid(shown) && Field(shown, "status") == Str(BillStatusName(Overdue))
  }

  lemma ActionsOffered(p: Platform, now: int, b: Record)
    ensures PayOffered(Derive(p, now, b)) <==> !IsPaid(b)
    ensures SnoozeOffered(Derive(p, now, b)) <==> ShownOverdue(p, now, b) || Field(b, "status") == Str("overdue")
  {
  }

  function MarkPaidPatch(id: Value, paidAt: string): Record {
    map["id" := id, "status" := Str(BillStatusName(Paid)), "paidAt" := Str(paidAt)]
  }

  function SnoozePatch(p: Platform, id: Value, now: int): Record {
    map["id" := id, "snoozedUntil" := Str(p.formatInstant(now + SnoozeMillis)),
        "status" := Str(BillStatusName(Scheduled))]
  }

  /**
   * Marking a bill paid sets status and payment time, stamps it and keeps
   * every other field.
   */
  lemma MarkPaidFields(b: Record, paidAt: string, stamp: string)
    ensures var r := Store.Merged(b, MarkPaidPatch(Field(b, "id"), paidAt), stamp);
      && IsPaid(r) && Field(r, "paidAt") == Str(paidAt) && Field(r, "updatedAt") == Str(stamp)
      && (forall k :: k != "status" && k != "paidAt" && k != "updatedAt" ==> Field(r, k) == Field(b, k))
  {
    var patch := MarkPaidPatch(Field(b, "id"), paidAt);
    var r := Store.Merged(b, patch, stamp);
    assert patch.Keys == {"id", "status", "paidAt"};
    assert "status" in patch && "paidAt" in patch;
    assert Field(r, "id") == Field(b, "id") by {
      if "id" in b { assert r["id"] == patch["id"]; }
    }
  }

  /** A paid bill is never shown overdue, at any time. */
  lemma MarkPaidNeverOverdue(p: Platform, b: Record, paidAt: string, stamp: string, t: int)
    ensures var r := Store.Merged(b, MarkPaidPatch(Field(b, "id"), paidAt), stamp);
      Derive(p, t, r) == r && !ShownOverdue(p, t, r)
  {
    MarkPaidFields(b, paidAt, stamp);
  }

  /** Marking a well-formed bill paid leaves it well-formed. */
  lemma MarkPaidKeepsBill(b: Record, paidAt: string, stamp: string)
    requires IsBill(b)
    ensures IsBill(Store.Merged(b, MarkPaidPatch(Field(b, "id"), paidAt), stamp))
  {
    MarkPaidFields(b, paidAt, stamp);
  }

  /**
   * Paying twice is paying once with the later payment time: status and
   * every field other than the two timestamps are as after the first payment.
   */
  lemma MarkPaidTwice(b: Record, at1: string, s1: string, at2: string, s2: string)
    ensures var once := Store.Merged(b, MarkPaidPatch(Field(b, "id"), at1), s1);
      Store.Merged(once, MarkPaidPatch(Field(once, "id"), at2), s2)
        == Store.Merged(b, MarkPaidPatch(Field(b, "id"), at2), s2)
  {
    var once := Store.Merged(b, MarkPaidPatch(Field(b, "id"), at1), s1);
    assert Field(once, "id") == Field(b, "id");
  }

  /**
   * Snoozing sets the snooze end four hours ahead and the status back to
   * scheduled, stamps the bill and keeps every other field.
   */
  lemma SnoozeFields(p: Platform, b: Record, now: int, stamp: string)
    ensures var r := Store.Merged(b, SnoozePatch(p, Field(b, "id"), now), stamp);
      && Field(r, "snoozedUntil") == Str(p.formatInstant(now + SnoozeMillis))
      && Field(r, "status") == Str("scheduled") && Field(r, "updatedAt") == Str(stamp)
      && (forall k :: k != "status" && k != "snoozedUntil" && k != "updatedAt" ==> Field(r, k) == Field(b, k))
  {
    var patch := SnoozePatch(p, Field(b, "id"), now);
    var r := Store.Merged(b, patch, stamp);
    assert patch.Keys == {"id", "snoozedUntil", "status"};
    assert "status" in patch && "snoozedUntil" in patch;
    assert Field(r, "id") == Field(b, "id") by {
      if "id" in b { assert r["id"] == patch["id"]; }
    }
  }

  /**
   * A snoozed bill is shown as scheduled for four hours; from then on it is
   * shown overdue again exactly when its due instant has passed.
   */
  lemma SnoozeSilences(p: Platform, b: Record, now: int, stamp: string)
    requires Coherent(p)
    ensures var r := Store.Merged(b, SnoozePatch(p, Field(b, "id"), now), stamp);
      && (forall t :: t < now + SnoozeMillis ==>
            !ShownOverdue(p, t, r) && Field(Derive(p, t, r), "status") == Str("scheduled"))
      && (forall t :: t >= now + SnoozeMillis ==>
            (ShownOverdue(p, t, r) <==> Before(DueInstant(p, b, MidnightSuffix), t)))
  {
    var r := Store.Merged(b, SnoozePatch(p, Field(b, "id"), now), stamp);
    var until := p.formatInstant(now + SnoozeMillis);
    assert p.parseInstant(until) == Some(now + SnoozeMillis) && until != "";
    SnoozeFields(p, b, now, stamp);
    assert DueText(p, r, MidnightSuffix) == DueText(p, b, MidnightSuffix);
  }

  /** Snoozing a well-formed bill leaves it well-formed. */
  lemma SnoozeKeepsBill(p: Platform, b: Record, now: int, stamp: string)
    requires IsBill(b)
    ensures IsBill(Store.Merged(b, SnoozePatch(p, Field(b, "id"), now), stamp))
  {
    SnoozeFields(p, b, now, stamp);
  }

  /**
   * The scenario of a utility bill due 2024-01-10: overdue at midnight the
   * next day, scheduled three hours after a snooze, overdue five hours after.
   */
  lemma UtilityBillScenario(p: Platform, due: int, stamp: string)
    requires Coherent(p)
    requires p.parseInstant("2024-01-10T00:00:00") == Some(due)
    ensures var b := map["id" := Str("b1"), "payee" := Str("Utility Corp"), "amount" := Num(42.5),
                         "dueDate" := Str("2024-01-10"), "status" := Str("scheduled")];
      var now := due + 24 * 60 * 60 * 1000;
      var snoozed := Store.Merged(b, SnoozePatch(p, Str("b1"), now), stamp);
      && Field(Derive(p, now, b), "status") == Str("overdue")
      && Field(Derive(p, now + 3 * 60 * 60 * 1000, snoozed), "status") == Str("scheduled")
      && Field(Derive(p, now + 5 * 60 * 60 * 1000, snoozed), "status") == Str("overdue")
  {
    var b := map["id" := Str("b1"), "payee" := Str("Utility Corp"), "amount" := Num(42.5),
                 "dueDate" := Str("2024-01-10"), "status" := Str("scheduled")];
    assert DueText(p, b, MidnightSuffix) == "2024-01-10T00:00:00";
    SnoozeSilences(p, b, due + 24 * 60 * 60 * 1000, stamp);
  }

  /** `markPaid`. */
  method MarkPaid(store: Store.DataStore, bill: Record, paidAt: string, stamp: string)
    modifies store
    ensures var patch := MarkPaidPatch(Field(bill, "id"), paidAt);
      var e := Store.UpdateIn(old(store.Current()), Store.Bills, patch, stamp);
      store.docs == if e.None? then old(store.docs) else Store.Stored(old(store.docs), store.Key(), e.value)
  {
    store.UpdateItem(Store.Bills, MarkPaidPatch(Field(bill, "id"), paidAt), stamp);
  }

  /** `snoozeBill`. */
  method SnoozeBill(store: Store.DataStore, p: Platform, bill: Record, now: int, stamp: string)
    modifies store
    ensures var patch := SnoozePatch(p, Field(bill, "id"), now);
      var e := Store.UpdateIn(old(store.Current()), Store.Bills, patch, stamp);
      store.docs == if e.None? then old(store.docs) else Store.Stored(old(store.docs), store.Key(), e.value)
  {
    store.UpdateItem(Store.Bills, SnoozePatch(p, Field(bill, "id"), now), stamp);
  }

  /** `deleteBill`. */
  method DeleteBill(store: Store.DataStore, id: string)
    modifies store
    ensures store.docs == Store.Stored(old(store.docs), store.Key(), Store.RemoveFrom(old(store.Current()), Store.Bills, id))
  {
    store.DeleteItem(Store.Bills, id);
  }
}
