/**
 * The task list (components/views/TasksView.tsx): open tasks before done
 * ones, each group by due date; toggling flips between todo and done and
 * records or clears the completion time; the header counts open tasks.
 */
module Tasks {
  import opened Common
  import opened Js
  import opened Types
  import opened Aggregates
  import opened Sorting
  import Store

  predicate IsDone(t: Record) {
    Field(t, "status") == Str(StatusName(Done))
  }

  predicate IsOpen(t: Record) {
    !IsDone(t)
  }

  /** `t.dueAt || ''` as a string. */
  function DueKey(t: Record): string {
    var v := Or(Field(t, "dueAt"), Str(""));
    if v.Str? then v.s else ""
  }

  /** The order the comparator establishes: open before done, then by due text. */
  predicate TaskLe(a: Record, b: Record) {
    if IsDone(a) != IsDone(b) then !IsDone(a) else LexLe(DueKey(a), DueKey(b))
  }

  lemma TaskLeIsTotalPreorder()
    ensures TotalPreorder(TaskLe)
  {
    LexLeTotalOrder();
  }

  /** In a sorted list every open task precedes every done one, and each group is by due text. */
  lemma SortedTasksShape(s: seq<Record>)
    requires SortedBy(s, TaskLe)
    ensures forall i, j :: 0 <= i < j < |s| && IsDone(s[i]) ==> IsDone(s[j])
    ensures forall i, j :: 0 <= i < j < |s| && IsDone(s[i]) == IsDone(s[j]) ==> LexLe(DueKey(s[i]), DueKey(s[j]))
  {
  }

  /** `loadTasks`: the stored tasks in display order. */
  method LoadTasks(store: Store.DataStore) returns (shown: seq<Record>)
    ensures multiset(shown) == multiset(store.Current().tasks)
    ensures SortedBy(shown, TaskLe)
  {
    var db := store.Get();
    var a := new Record[|db.tasks|](i requires 0 <= i < |db.tasks| => db.tasks[i]);
    assert a[..] == db.tasks;
    TaskLeIsTotalPreorder();
    SortBy(a, TaskLe);
    shown := a[..];
  }

  /** The status a toggle moves to. */
  function Toggled(t: Record): Status {
    if IsDone(t) then Todo else Done
  }

  function TogglePatch(t: Record, now: string): Record {
    var status := Toggled(t);
    map["id" := Field(t, "id"), "status" := Str(StatusName(status)),
        "completedAt" := if status == Done then Str(now) else Undefined]
  }

  /**
   * A toggle flips done and not done, records the completion time exactly
   * when the task becomes done, clears it otherwise, and keeps every other
   * field.
   */
  lemma ToggleSpec(t: Record, now: string, stamp: string)
    ensures var r := Store.Merged(t, TogglePatch(t, now), stamp);
      && (IsDone(r) <==> !IsDone(t))
      && (IsDone(r) ==> Field(r, "completedAt") == Str(now))
      && (!IsDone(r) ==> Field(r, "status") == Str("todo") && Field(r, "completedAt") == Undefined)
      && Field(r, "updatedAt") == Str(stamp)
      && (forall k :: k != "status" && k != "completedAt" && k != "updatedAt" ==> Field(r, k) == Field(t, k))
  {
    var patch := TogglePatch(t, now);
    var r := Store.Merged(t, patch, stamp);
    assert patch.Keys == {"id", "status", "completedAt"};
    assert "status" in patch && "completedAt" in patch;
    assert Field(r, "id") == Field(t, "id") by {
      if "id" in t { assert r["id"] == patch["id"]; }
    }
  }

  /** Toggling twice restores whether the task is done, with the later completion time. */
  lemma ToggleTwice(t: Record, now1: string, s1: string, now2: string, s2: string)
    ensures var once := Store.Merged(t, TogglePatch(t, now1), s1);
      var twice := Store.Merged(once, TogglePatch(once, now2), s2);
      IsDone(twice) == IsDone(t) && (IsDone(t) ==> Field(twice, "completedAt") == Str(now2))
  {
    var once := Store.Merged(t, TogglePatch(t, now1), s1);
    ToggleSpec(t, now1, s1);
    ToggleSpec(once, now2, s2);
  }

  /** Toggling keeps a well-formed task well-formed. */
  lemma ToggleKeepsTask(t: Record, now: string, stamp: string)
    requires IsTask(t)
    ensures IsTask(Store.Merged(t, TogglePatch(t, now), stamp))
  {
    ToggleSpec(t, now, stamp);
  }

  /** `toggleTask`. */
  method ToggleTask(store: Store.DataStore, task: Record, now: string, stamp: string)
    modifies store
    ensures var e := Store.UpdateIn(old(store.Current()), Store.Tasks, TogglePatch(task, now), stamp);
      store.docs == if e.None? then old(store.docs) else Store.Stored(old(store.docs), store.Key(), e.value)
  {
    store.UpdateItem(Store.Tasks, TogglePatch(task, now), stamp);
  }

  /** `deleteTask`. */
  method DeleteTask(store: Store.DataStore, id: string)
    modifies store
    ensures store.docs == Store.Stored(old(store.docs), store.Key(), Store.RemoveFrom(old(store.Current()), Store.Tasks, id))
  {
    store.DeleteItem(Store.Tasks, id);
  }

  /** The header count: `tasks.filter(t => t.status !== 'done').length`. */
  function ActiveCount(tasks: seq<Record>): nat {
    Count(tasks, IsOpen)
  }

  /** The count does not depend on display order, and open plus done is everything. */
  lemma ActiveCountSpec(stored: seq<Record>, shown: seq<Record>)
    requires multiset(shown) == multiset(stored)
    ensures ActiveCount(shown) == ActiveCount(stored)
    ensures ActiveCount(stored) + Count(stored, IsDone) == |stored|
  {
    CountPermutation(shown, stored, IsOpen);
    CountComplement(stored, IsOpen, IsDone);
  }
}
