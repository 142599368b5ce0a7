/**
 * The agenda (components/views/CalendarView.tsx): tasks by `dueAt` and
 * bills by `dueDate`, grouped under the date part of that field, each item
 * tagged with its kind; the dates are listed in ascending order.
 */
module Calendar {
  import opened Common
  import opened Js
  import opened Sorting
  import Store

  /** A date-keyed grouping, `Record<string, any[]>`. */
  type Groups = map<string, seq<Record>>

  /** `grouped[d]`, with an absent date read as an empty group. */
  function Lookup(g: Groups, d: string): seq<Record> {
    if d in g then g[d] else []
  }

  /** The date an item is filed under: none for a falsy field. */
  function DateKey(v: Value): Option<string> {
    if Truthy(v) && v.Str? then Some(DatePart(v.s)) else None
  }

  /** `{ ...item, type: kind }`. */
  function Tagged(r: Record, kind: string): Record {
    r + map["type" := Str(kind)]
  }

  /** `addToDate(dateStr, item)`. */
  function AddToDate(g: Groups, dateStr: Value, item: Record): Groups {
    match DateKey(dateStr)
    case None => g
    case Some(d) => g[d := Lookup(g, d) + [item]]
  }

  /** `items.forEach(x => addToDate(x[field], { ...x, type: kind }))`, starting from `g`. */
  function Grouped(g: Groups, items: seq<Record>, field: string, kind: string): Groups {
    if |items| == 0 then g
    else
      var last := items[|items| - 1];
      AddToDate(Grouped(g, items[..|items| - 1], field, kind), Field(last, field), Tagged(last, kind))
  }

  /** The tagged items filed under `d`, in their original order. */
  function Select(items: seq<Record>, field: string, kind: string, d: string): seq<Record> {
    if |items| == 0 then []
    else
      var last := items[|items| - 1];
      Select(items[..|items| - 1], field, kind, d)
        + (if DateKey(Field(last, field)) == Some(d) then [Tagged(last, kind)] else [])
  }

  /** Grouping appends each date's items, in order, to what the date already held. */
  lemma {:induction false} GroupedSpec(g: Groups, items: seq<Record>, field: string, kind: string)
    ensures forall d :: Lookup(Grouped(g, items, field, kind), d) == Lookup(g, d) + Select(items, field, kind, d)
    ensures forall d :: d in Grouped(g, items, field, kind) <==> d in g || Select(items, field, kind, d) != []
    decreases |items|
  {
    if |items| > 0 {
      var init := items[..|items| - 1];
      GroupedSpec(g, init, field, kind);
      forall d ensures Lookup(Grouped(g, items, field, kind), d) == Lookup(g, d) + Select(items, field, kind, d) {
        assert Lookup(g, d) + Select(init, field, kind, d) + [Tagged(items[|items| - 1], kind)]
          == Lookup(g, d) + (Select(init, field, kind, d) + [Tagged(items[|items| - 1], kind)]);
      }
    }
  }

  /**
   * Every item in the group of `d` is an item of the list whose field files
   * it under `d`, tagged with the list's kind; every such item is there.
   */
  lemma {:induction false} SelectSpec(items: seq<Record>, field: string, kind: string, d: string)
    requires field != "type"
    ensures forall x :: x in Select(items, field, kind, d) ==>
      DateKey(Field(x, field)) == Some(d) && Field(x, "type") == Str(kind)
    ensures forall j :: 0 <= j < |items| && DateKey(Field(items[j], field)) == Some(d) ==>
      Tagged(items[j], kind) in Select(items, field, kind, d)
    decreases |items|
  {
    if |items| > 0 {
      var init := items[..|items| - 1];
      SelectSpec(init, field, kind, d);
      forall j | 0 <= j < |items| - 1 ensures items[j] == init[j] { }
    }
  }

  /** The agenda: tasks first, then bills. */
  function Agenda(tasks: seq<Record>, bills: seq<Record>): Groups {
    Grouped(Grouped(map[], tasks, "dueAt", "task"), bills, "dueDate", "bill")
  }

  /**
   * Each date's group holds its tasks, in store order, then its bills, in
   * store order; a date is listed exactly when something is due on it.
   */
  lemma AgendaSpec(tasks: seq<Record>, bills: seq<Record>)
    ensures forall d ::
      Lookup(Agenda(tasks, bills), d) == Select(tasks, "dueAt", "task", d) + Select(bills, "dueDate", "bill", d)
    ensures forall d :: d in Agenda(tasks, bills) <==> Lookup(Agenda(tasks, bills), d) != []
  {
    GroupedSpec(map[], tasks, "dueAt", "task");
    GroupedSpec(Grouped(map[], tasks, "dueAt", "task"), bills, "dueDate", "bill");
  }

  /** One `forEach` over a collection, keeping the dates in first-seen order. */
  method AddAll(g0: Groups, order0: seq<string>, items: seq<Record>, field: string, kind: string)
    returns (g: Groups, order: seq<string>)
    requires forall d :: d in order0 <==> d in g0
    requires Distinct(order0)
    ensures g == Grouped(g0, items, field, kind)
    ensures forall d :: d in order <==> d in g
    ensures Distinct(order)
  {
    g, order := g0, order0;
    var i := 0;
    while i < |items|
      invariant 0 <= i <= |items|
      invariant g == Grouped(g0, items[..i], field, kind)
      invariant forall d :: d in order <==> d in g
      invariant Distinct(order)
    {
      var x := items[i];
      assert items[..i + 1][..i] == items[..i];
      var key := DateKey(Field(x, field));
      if key.Some? && key.value !in g {
        order := order + [key.value];
      }
      g := AddToDate(g, Field(x, field), Tagged(x, kind));
      i := i + 1;
    }
    assert items[..i] == items;
  }

  /** Distinct dates sorted by `<=` are strictly ascending. */
  lemma StrictlyAscending(dates: seq<string>)
    requires SortedBy(dates, LexLe) && Distinct(dates)
    ensures forall i, j :: 0 <= i < j < |dates| ==> LexLess(dates[i], dates[j])
  {
  }

  /** `loadAgenda` and `Object.keys(itemsByDate).sort()`. */
  method LoadAgenda(store: Store.DataStore) returns (grouped: Groups, dates: seq<string>)
    ensures grouped == Agenda(store.Current().tasks, store.Current().bills)
    ensures forall d :: d in dates <==> d in grouped
    ensures forall i, j :: 0 <= i < j < |dates| ==> LexLess(dates[i], dates[j])
  {
    var db := store.Get();
    var order;
    grouped, order := AddAll(map[], [], db.tasks, "dueAt", "task");
    grouped, order := AddAll(grouped, order, db.bills, "dueDate", "bill");
    var a := new string[|order|](i requires 0 <= i < |order| => order[i]);
    assert a[..] == order;
    LexLeTotalOrder();
    SortBy(a, LexLe);
    dates := a[..];
    DistinctPermutation(dates, order);
    forall d ensures d in dates <==> d in order {
      assert d in dates <==> d in multiset(dates);
    }
    StrictlyAscending(dates);
  }
}
