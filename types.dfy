/**
 * The entity and enumeration types of the application (types.ts).
 *
 * The string unions become datatypes, each with the name it has in a stored
 * document and a parser that inverts it. The interfaces are structural
 * types over plain JSON objects, so each becomes a schema predicate over a
 * `Js.Record`: the store holds records, and a record is a Task, a Bill, ...
 * exactly when it has the interface's fields with the interface's types.
 * An optional field (`x?: T`) is absent or `undefined`.
 */
module Types {
  import opened Common
  import opened Js

  // ---------------------------------------------------------------- enumerations

  datatype Priority = P0 | P1 | P2 | P3

  function PriorityName(p: Priority): string {
    match p
    case P0 => "P0"
    case P1 => "P1"
    case P2 => "P2"
    case P3 => "P3"
  }

  function ParsePriority(s: string): (r: Option<Priority>)
    ensures forall p :: r == Some(p) <==> s == PriorityName(p)
  {
    if s == "P0" then Some(P0)
    else if s == "P1" then Some(P1)
    else if s == "P2" then Some(P2)
    else if s == "P3" then Some(P3)
    else None
  }

  /** Task status. */
  datatype Status = Todo | InProgress | Done

  function StatusName(s: Status): string {
    match s
    case Todo => "todo"
    case InProgress => "in_progress"
    case Done => "done"
  }

  function ParseStatus(s: string): (r: Option<Status>)
    ensures forall st :: r == Some(st) <==> s == StatusName(st)
  {
    if s == "todo" then Some(Todo)
    else if s == "in_progress" then Some(InProgress)
    else if s == "done" then Some(Done)
    else None
  }

  datatype BillStatus = Scheduled | Paid | Overdue

  function BillStatusName(s: BillStatus): string {
    match s
    case Scheduled => "scheduled"
    case Paid => "paid"
    case Overdue => "overdue"
  }

  function ParseBillStatus(s: string): (r: Option<BillStatus>)
    ensures forall st :: r == Some(st) <==> s == BillStatusName(st)
  {
    if s == "scheduled" then Some(Scheduled)
    else if s == "paid" then Some(Paid)
    else if s == "overdue" then Some(Overdue)
    else None
  }

  /** A bill's recurrence rule. */
  datatype Recurrence = NoRecurrence | Monthly | Biweekly | Custom

  function RecurrenceName(r: Recurrence): string {
    match r
    case NoRecurrence => "none"
    case Monthly => "monthly"
    case Biweekly => "biweekly"
    case Custom => "custom"
  }

  function ParseRecurrence(s: string): (r: Option<Recurrence>)
    ensures forall rc :: r == Some(rc) <==> s == RecurrenceName(rc)
  {
    if s == "none" then Some(NoRecurrence)
    else if s == "monthly" then Some(Monthly)
    else if s == "biweekly" then Some(Biweekly)
    else if s == "custom" then Some(Custom)
    else None
  }

  /** Who wrote a chat message. */
  datatype Role = UserRole | ModelRole

  function RoleName(r: Role): string {
    match r
    case UserRole => "user"
    case ModelRole => "model"
  }

  function ParseRole(s: string): (r: Option<Role>)
    ensures forall ro :: r == Some(ro) <==> s == RoleName(ro)
  {
    if s == "user" then Some(UserRole)
    else if s == "model" then Some(ModelRole)
    else None
  }

  /** A chat message; it lives only in the running chat session. */
  datatype ChatMessage = ChatMessage(role: Role, text: string, timestamp: string)

  /** The action a parsed command asks for. */
  datatype CommandType =
    | CreateTask | UpdateTask | CompleteTask | CreateBill | MarkBillPaid
    | CreateEvent | CreateNote | SetReminder | Query | DailySummary

  function CommandName(c: CommandType): string {
    match c
    case CreateTask => "create_task"
    case UpdateTask => "update_task"
    case CompleteTask => "complete_task"
    case CreateBill => "create_bill"
    case MarkBillPaid => "mark_bill_paid"
    case CreateEvent => "create_event"
    case CreateNote => "create_note"
    case SetReminder => "set_reminder"
    case Query => "query"
    case DailySummary => "daily_summary"
  }

  function ParseCommandType(s: string): (r: Option<CommandType>)
    ensures forall c :: r == Some(c) <==> s == CommandName(c)
  {
    if s == "create_task" then Some(CreateTask)
    else if s == "update_task" then Some(UpdateTask)
    else if s == "complete_task" then Some(CompleteTask)
    else if s == "create_bill" then Some(CreateBill)
    else if s == "mark_bill_paid" then Some(MarkBillPaid)
    else if s == "create_event" then Some(CreateEvent)
    else if s == "create_note" then Some(CreateNote)
    else if s == "set_reminder" then Some(SetReminder)
    else if s == "query" then Some(Query)
    else if s == "daily_summary" then Some(DailySummary)
    else None
  }

  /**
   * The structured answer of the command interpreter. `kind` is the `type`
   * field as the service returned it; `payload` is whatever JSON value it
   * put there (an object, `null`, or nothing at all).
   */
  datatype ParsedCommand = ParsedCommand(
    kind: string,
    confidence: real,
    clarificationQuestion: Option<string>,
    missingFields: seq<string>,
    payload: Value)

  // ---------------------------------------------------------------- field types

  predicate IsString(v: Value) { v.Str? }

  predicate IsOptString(v: Value) { v.Undefined? || v.Str? }

  predicate IsNumber(v: Value) { v.Num? }

  predicate IsBoolean(v: Value) { v.Bool? }

  predicate IsStringArray(v: Value) {
    v.Arr? && forall i :: 0 <= i < |v.elems| ==> v.elems[i].Str?
  }

  predicate IsPriority(v: Value) { v.Str? && ParsePriority(v.s).Some? }

  predicate IsStatus(v: Value) { v.Str? && ParseStatus(v.s).Some? }

  predicate IsBillStatus(v: Value) { v.Str? && ParseBillStatus(v.s).Some? }

  predicate IsOptRecurrence(v: Value) { v.Undefined? || (v.Str? && ParseRecurrence(v.s).Some?) }

  // ---------------------------------------------------------------- interfaces

  /** BaseItem: every stored entity has an id and two timestamps. */
  predicate IsBaseItem(r: Record) {
    IsString(Field(r, "id")) && IsString(Field(r, "createdAt")) && IsString(Field(r, "updatedAt"))
  }

  predicate IsTask(r: Record) {
    && IsBaseItem(r)
    && IsString(Field(r, "title"))
    && IsOptString(Field(r, "notes"))
    && IsOptString(Field(r, "dueAt"))
    && IsPriority(Field(r, "priority"))
    && IsStringArray(Field(r, "tags"))
    && IsOptString(Field(r, "project"))
    && IsStatus(Field(r, "status"))
    && IsOptString(Field(r, "completedAt"))
  }

  predicate IsBill(r: Record) {
    && IsBaseItem(r)
    && IsString(Field(r, "payee"))
    && IsNumber(Field(r, "amount"))
    && IsString(Field(r, "currency"))
    && IsString(Field(r, "dueDate"))
    && IsOptString(Field(r, "dueTime"))
    && IsOptRecurrence(Field(r, "recurrence"))
    && IsBoolean(Field(r, "autopay"))
    && IsOptString(Field(r, "consequencesText"))
    && IsStringArray(Field(r, "reminderCadence"))
    && IsBillStatus(Field(r, "status"))
    && IsOptString(Field(r, "paidAt"))
    && IsOptString(Field(r, "proofNote"))
    && IsOptString(Field(r, "snoozedUntil"))
  }

  predicate IsNote(r: Record) {
    && IsBaseItem(r)
    && IsString(Field(r, "content"))
    && IsStringArray(Field(r, "tags"))
    && IsOptString(Field(r, "linkedItemId"))
  }

  /** ReceiptExtract: every field optional. */
  predicate IsReceiptExtract(r: Record) {
    && IsOptString(Field(r, "vendorName"))
    && IsOptString(Field(r, "date"))
    && (Field(r, "subtotal").Undefined? || IsNumber(Field(r, "subtotal")))
    && (Field(r, "tax").Undefined? || IsNumber(Field(r, "tax")))
    && (Field(r, "total").Undefined? || IsNumber(Field(r, "total")))
    && IsOptString(Field(r, "currency"))
    && IsOptString(Field(r, "category"))
    && IsOptString(Field(r, "paymentMethod"))
    && (Field(r, "lineItems").Undefined? || Field(r, "lineItems").Arr?)
  }

  predicate IsReceipt(r: Record) {
    && IsBaseItem(r)
    && IsString(Field(r, "vendorName"))
    && IsString(Field(r, "date"))
    && IsNumber(Field(r, "total"))
    && IsString(Field(r, "currency"))
    && IsOptString(Field(r, "category"))
    && IsOptString(Field(r, "imageUrl"))
    && (Field(r, "extractedData").Undefined?
        || (Field(r, "extractedData").Obj? && IsReceiptExtract(Field(r, "extractedData").fields)))
  }

  predicate IsSettings(r: Record) {
    && IsString(Field(r, "timezone"))
    && IsString(Field(r, "workHoursStart"))
    && IsString(Field(r, "workHoursEnd"))
    && IsBoolean(Field(r, "notificationsEnabled"))
    && IsString(Field(r, "currency"))
  }

  // ---------------------------------------------------------------- lemmas

  /** Each union is closed: a stored name parses to exactly one constructor. */
  lemma NamesAreDistinct()
    ensures forall p, q :: PriorityName(p) == PriorityName(q) ==> p == q
    ensures forall s, t :: StatusName(s) == StatusName(t) ==> s == t
    ensures forall s, t :: BillStatusName(s) == BillStatusName(t) ==> s == t
    ensures forall r, s :: RecurrenceName(r) == RecurrenceName(s) ==> r == s
    ensures forall r, s :: RoleName(r) == RoleName(s) ==> r == s
    ensures forall c, d :: CommandName(c) == CommandName(d) ==> c == d
  {
    forall p, q | PriorityName(p) == PriorityName(q) ensures p == q {
      assert ParsePriority(PriorityName(p)) == Some(p);
    }
    forall s, t | StatusName(s) == StatusName(t) ensures s == t {
      assert ParseStatus(StatusName(s)) == Some(s);
    }
    forall s, t | BillStatusName(s) == BillStatusName(t) ensures s == t {
      assert ParseBillStatus(BillStatusName(s)) == Some(s);
    }
    forall r, s | RecurrenceName(r) == RecurrenceName(s) ensures r == s {
      assert ParseRecurrence(RecurrenceName(r)) == Some(r);
    }
    forall r, s | RoleName(r) == RoleName(s) ensures r == s {
      assert ParseRole(RoleName(r)) == Some(r);
    }
    forall c, d | CommandName(c) == CommandName(d) ensures c == d {
      assert ParseCommandType(CommandName(c)) == Some(c);
    }
  }

  /** Every entity interface extends BaseItem. */
  lemma EntitiesAreBaseItems(r: Record)
    ensures IsTask(r) || IsBill(r) || IsNote(r) || IsReceipt(r) ==> IsBaseItem(r)
  {
  }
}
