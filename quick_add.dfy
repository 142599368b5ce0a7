/**
 * The command bar (components/QuickAdd.tsx): free text goes to the command
 * interpreter; a clarification question is shown instead of acting; the
 * create commands add one record to the signed-in user's document, with
 * defaults the payload overrides; any other command type is ignored; a
 * failure shows a fixed message and keeps the input.
 */
module QuickAdd {
  import opened Common
  import opened Js
  import opened Types
  import Store

  const ParseIssue: string := "FocusPilot: Command parsing issue. Please clarify."
  const NewTaskTitle: string := "New Task"
  const DefaultPriority: string := "P1"

  /** What the interpreter call produced: a command, or a thrown error. */
  datatype ParseResult = Parsed(cmd: ParsedCommand) | ParseFailed

  /** What `executeAction` did: added one record, ignored the command, or threw. */
  datatype Outcome = Added(collection: Store.Collection, item: Record) | Ignored | Threw

  /** The characters `String.prototype.trim` removes. */
  predicate IsTrimmed(c: char) {
    || c == ' ' || c == '\t' || c == '\n' || c == '\r' || c == '\U{000B}' || c == '\U{000C}'
    || c == '\U{00A0}' || c == '\U{1680}' || ('\U{2000}' <= c <= '\U{200A}') || c == '\U{2028}'
    || c == '\U{2029}' || c == '\U{202F}' || c == '\U{205F}' || c == '\U{3000}' || c == '\U{FEFF}'
  }

  /** `!input.trim()`. */
  predicate IsBlank(s: string) {
    forall i :: 0 <= i < |s| ==> IsTrimmed(s[i])
  }

  // ---------------------------------------------------------------- records

  /** The task record: defaults, then the whole payload, which wins on every key it has. */
  function TaskFromCommand(payload: Value, id: string, now: string): Option<Record> {
    match Prop(payload, "title")
    case None => None
    case Some(title) =>
      Some(map["id" := Str(id), "title" := Or(title, Str(NewTaskTitle)), "status" := Str(StatusName(Todo)),
               "priority" := Or(Field(Spread(payload), "priority"), Str(DefaultPriority)),
               "createdAt" := Str(now), "updatedAt" := Str(now)]
           + Spread(payload))
  }

  /**
   * A task is made exactly when the payload is neither null nor undefined;
   * every payload field is copied, and each default fills a field the
   * payload lacks: "New Task", todo, P1, the fresh id and `now`.
   */
  lemma TaskFromCommandSpec(payload: Value, id: string, now: string)
    ensures TaskFromCommand(payload, id, now).None? <==> payload.Undefined? || payload.Null?
    ensures TaskFromCommand(payload, id, now).Some? ==>
      var r := TaskFromCommand(payload, id, now).value;
      var given := Spread(payload);
      && r.Keys == given.Keys + {"id", "title", "status", "priority", "createdAt", "updatedAt"}
      && (forall k :: k in given ==> r[k] == given[k])
      && ("title" !in given ==> r["title"] == Str("New Task"))
      && ("status" !in given ==> r["status"] == Str("todo"))
      && ("priority" !in given ==> r["priority"] == Str("P1"))
      && ("id" !in given ==> r["id"] == Str(id))
      && ("createdAt" !in given ==> r["createdAt"] == Str(now))
      && ("updatedAt" !in given ==> r["updatedAt"] == Str(now))
  {
    if payload.Obj? {
      assert Spread(payload) == payload.fields;
    }
  }

  /**
   * The fallbacks are read before the payload is spread, so a title or
   * priority that is present but null (the interpreter's schema allows
   * both) is kept, and the record is then not a well-formed task.
   */
  lemma NullTitleKept(id: string, now: string)
    ensures var r := TaskFromCommand(Obj(map["title" := Null, "priority" := Null]), id, now);
      r.Some? && r.value["title"] == Null && r.value["priority"] == Null && !IsTask(r.value)
  {
  }

  /** The bill record: defaults, then the whole payload. */
  function BillFromCommand(payload: Value, id: string, now: string): Record {
    map["id" := Str(id), "status" := Str(BillStatusName(Scheduled)),
        "reminderCadence" := Arr([Str("3d"), Str("1d")]), "currency" := Str("USD"),
        "createdAt" := Str(now), "updatedAt" := Str(now)]
      + Spread(payload)
  }

  /**
   * The bill has the payload's keys and the six default keys; every payload
   * field wins over the bill defaults, and every default fills a gap.
   */
  lemma BillFromCommandSpec(payload: Value, id: string, now: string)
    ensures var r := BillFromCommand(payload, id, now);
      && r.Keys == Spread(payload).Keys + {"id", "status", "reminderCadence", "currency", "createdAt", "updatedAt"}
      && (forall k :: k in Spread(payload) ==> r[k] == Spread(payload)[k])
      && ("createdAt" !in Spread(payload) ==> r["createdAt"] == Str(now))
      && ("updatedAt" !in Spread(payload) ==> r["updatedAt"] == Str(now))
      && ("id" !in Spread(payload) ==> r["id"] == Str(id))
      && ("status" !in Spread(payload) ==> r["status"] == Str("scheduled"))
      && ("currency" !in Spread(payload) ==> r["currency"] == Str("USD"))
      && ("reminderCadence" !in Spread(payload) ==> r["reminderCadence"] == Arr([Str("3d"), Str("1d")]))
  {
  }

  /** The note record: content from the notes, else the title; the payload is not copied. */
  function NoteFromCommand(payload: Value, id: string, now: string): Option<Record> {
    match Prop(payload, "notes")
    case None => None
    case Some(notes) =>
      Some(map["id" := Str(id), "content" := Or(notes, Field(Spread(payload), "title")), "tags" := Arr([]),
               "createdAt" := Str(now), "updatedAt" := Str(now)])
  }

  /**
   * A note is made exactly when the payload is neither null nor undefined.
   * Its content is the payload's notes, or its title when the notes are
   * falsy; its tags are empty; no other payload field is copied. With
   * string content it is a well-formed note.
   */
  lemma NoteFromCommandSpec(payload: Value, id: string, now: string)
    ensures NoteFromCommand(payload, id, now).None? <==> payload.Undefined? || payload.Null?
    ensures NoteFromCommand(payload, id, now).Some? ==>
      var r := NoteFromCommand(payload, id, now).value;
      var given := Spread(payload);
      && r.Keys == {"id", "content", "tags", "createdAt", "updatedAt"}
      && r["content"] == Or(Field(given, "notes"), Field(given, "title"))
      && r["tags"] == Arr([])
      && r["id"] == Str(id) && r["createdAt"] == Str(now) && r["updatedAt"] == Str(now)
    ensures NoteFromCommand(payload, id, now).Some? && Or(Field(Spread(payload), "notes"), Field(Spread(payload), "title")).Str? ==>
      IsNote(NoteFromCommand(payload, id, now).value)
  {
    if payload.Obj? {
      assert Spread(payload) == payload.fields;
    }
  }

  // ---------------------------------------------------------------- dispatch

  /** `executeAction`: the record a command adds, by command type. */
  function Dispatch(cmd: ParsedCommand, id: string, now: string): Outcome {
    match ParseCommandType(cmd.kind)
    case Some(CreateTask) =>
      (match TaskFromCommand(cmd.payload, id, now)
       case None => Threw
       case Some(t) => Added(Store.Tasks, t))
    case Some(CreateBill) => Added(Store.Bills, BillFromCommand(cmd.payload, id, now))
    case Some(CreateNote) =>
      (match NoteFromCommand(cmd.payload, id, now)
       case None => Threw
       case Some(n) => Added(Store.Notes, n))
    case _ => Ignored
  }

  /**
   * A create command adds one record to its own collection, failing only
   * for a task or note without a payload; every other type is ignored.
   */
  lemma DispatchSpec(cmd: ParsedCommand, id: string, now: string)
    ensures cmd.kind == "create_task" ==>
      Dispatch(cmd, id, now) == (if cmd.payload.Undefined? || cmd.payload.Null? then Threw
                                 else Added(Store.Tasks, TaskFromCommand(cmd.payload, id, now).value))
    ensures cmd.kind == "create_bill" ==> Dispatch(cmd, id, now) == Added(Store.Bills, BillFromCommand(cmd.payload, id, now))
    ensures cmd.kind == "create_note" ==>
      Dispatch(cmd, id, now) == (if cmd.payload.Undefined? || cmd.payload.Null? then Threw
                                 else Added(Store.Notes, NoteFromCommand(cmd.payload, id, now).value))
    ensures cmd.kind != "create_task" && cmd.kind != "create_bill" && cmd.kind != "create_note" ==>
      Dispatch(cmd, id, now) == Ignored
  {
    assert CommandName(CreateTask) == "create_task";
    assert CommandName(CreateBill) == "create_bill";
    assert CommandName(CreateNote) == "create_note";
  }

  /** "Call bank" becomes one todo task of priority P1 with that title. */
  lemma CallBankExample(id: string, now: string, confidence: real)
    ensures var cmd := ParsedCommand("create_task", confidence, None, [], Obj(map["title" := Str("Call bank")]));
      var o := Dispatch(cmd, id, now);
      && o.Added? && o.collection == Store.Tasks
      && o.item["title"] == Str("Call bank") && o.item["status"] == Str("todo")
      && o.item["priority"] == Str("P1") && o.item["id"] == Str(id)
  {
    DispatchSpec(ParsedCommand("create_task", confidence, None, [], Obj(map["title" := Str("Call bank")])), id, now);
  }

  // ---------------------------------------------------------------- the command bar

  /** How the bar reacts: what was dispatched, what it shows, and whether it clears the input. */
  datatype Reaction = Reaction(outcome: Outcome, clarification: Option<string>, clearInput: bool)

  /** `result.clarification_question` is truthy. */
  predicate Asks(cmd: ParsedCommand) {
    cmd.clarificationQuestion.Some? && cmd.clarificationQuestion.value != ""
  }

  /** The reaction of `handleCommand` to a non-blank input. */
  function React(result: ParseResult, id: string, now: string): Reaction {
    match result
    case ParseFailed => Reaction(Ignored, Some(ParseIssue), false)
    case Parsed(cmd) =>
      if Asks(cmd) then Reaction(Ignored, cmd.clarificationQuestion, false)
      else
        var o := Dispatch(cmd, id, now);
        if o.Threw? then Reaction(o, Some(ParseIssue), false) else Reaction(o, None, true)
  }

  /**
   * The input is cleared exactly when no message is shown, and then the
   * command was carried out; a record is added only for a command that
   * asked no question.
   */
  lemma ReactSpec(result: ParseResult, id: string, now: string)
    ensures React(result, id, now).clearInput <==> React(result, id, now).clarification.None?
    ensures React(result, id, now).clearInput ==> !React(result, id, now).outcome.Threw?
    ensures React(result, id, now).outcome.Added? ==>
      result.Parsed? && !Asks(result.cmd) && React(result, id, now).outcome == Dispatch(result.cmd, id, now)
    ensures result.ParseFailed? || React(result, id, now).outcome.Threw? ==>
      React(result, id, now).clarification == Some(ParseIssue)
    ensures result.Parsed? && Asks(result.cmd) ==>
      React(result, id, now).clarification == result.cmd.clarificationQuestion
  {
  }

  class CommandBar {
    var input: string
    var loading: bool
    var clarification: Option<string>

    constructor ()
      ensures input == "" && !loading && clarification == None
    {
      input, loading, clarification := "", false, None;
    }

    /** Typing, or a voice transcript. */
    method SetInput(text: string)
      modifies this
      ensures input == text && loading == old(loading) && clarification == old(clarification)
    {
      input := text;
    }

    /** `handleCommand`, with the interpreter's answer as a parameter. */
    method HandleCommand(store: Store.DataStore, result: ParseResult, id: string, now: string)
      returns (outcome: Option<Outcome>)
      modifies this, store
      ensures IsBlank(old(input)) ==>
        && outcome.None? && store.docs == old(store.docs)
        && input == old(input) && loading == old(loading) && clarification == old(clarification)
      ensures !IsBlank(old(input)) ==>
        var r := React(result, id, now);
        && outcome == Some(r.outcome) && !loading && clarification == r.clarification
        && input == (if r.clearInput then "" else old(input))
        && store.docs == (if r.outcome.Added? then
             Store.Stored(old(store.docs), old(store.Key()), Store.AddTo(old(store.Current()), r.outcome.collection, r.outcome.item))
           else old(store.docs))
    {
      if IsBlank(input) {
        return None;
      }
      loading := true;
      clarification := None;
      match result {
      case ParseFailed =>
        clarification := Some(ParseIssue);
        outcome := Some(Ignored);
      case Parsed(cmd) =>
        if Asks(cmd) {
          clarification := cmd.clarificationQuestion;
          outcome := Some(Ignored);
        } else {
          var o := ExecuteAction(store, cmd, id, now);
          if o.Threw? {
            clarification := Some(ParseIssue);
          } else {
            input := "";
          }
          outcome := Some(o);
        }
      }
      loading := false;
    }

    /** `executeAction`. */
    method ExecuteAction(store: Store.DataStore, cmd: ParsedCommand, id: string, now: string) returns (o: Outcome)
      modifies store
      ensures o == Dispatch(cmd, id, now)
      ensures o.Added? ==> store.docs == Store.Stored(old(store.docs), store.Key(), Store.AddTo(old(store.Current()), o.collection, o.item))
      ensures !o.Added? ==> store.docs == old(store.docs)
    {
      o := Dispatch(cmd, id, now);
      if o.Added? {
        store.AddItem(o.collection, o.item);
      }
    }
  }
}
