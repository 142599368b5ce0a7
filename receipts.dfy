/**
 * The archive view (components/views/ReceiptsView.tsx): a receipt record
 * built from the extraction result with fallbacks, the manual bill form,
 * and the CSV export of one receipt.
 */
module Receipts {
  import opened Common
  import opened Js
  import opened Types
  import Store

  const UnknownVendor: string := "Unknown Vendor"
  const DefaultCurrency: string := "USD"

  /**
   * The receipt for an extraction result: `None` stands for the TypeError
   * of reading a field of `null`. `now` is the current instant as ISO text.
   */
  function ReceiptFrom(extracted: Value, id: string, now: string, imageUrl: string): Option<Record> {
    match Prop(extracted, "vendorName")
    case None => None
    case Some(vendor) =>
      var e := Spread(extracted);
      Some(map[
        "id" := Str(id),
        "vendorName" := Or(vendor, Str(UnknownVendor)),
        "date" := Or(Field(e, "date"), Str(now)),
        "total" := Or(Field(e, "total"), Num(0.0)),
        "currency" := Or(Field(e, "currency"), Str(DefaultCurrency)),
        "category" := Field(e, "category"),
        "extractedData" := extracted,
        "imageUrl" := Str(imageUrl),
        "createdAt" := Str(now),
        "updatedAt" := Str(now)])
  }

  /**
   * A receipt is made exactly when the result is not null or undefined; its
   * vendor, date, total and currency are the extracted ones when truthy and
   * the fallbacks otherwise, the category and the raw result are kept, and
   * the id, image and timestamps are the given ones.
   */
  lemma ReceiptFromSpec(extracted: Value, id: string, now: string, imageUrl: string)
    ensures ReceiptFrom(extracted, id, now, imageUrl).None? <==> extracted.Undefined? || extracted.Null?
    ensures extracted.Obj? ==>
      var r := ReceiptFrom(extracted, id, now, imageUrl).value;
      var e := extracted.fields;
      && (Truthy(Field(e, "vendorName")) ==> r["vendorName"] == e["vendorName"])
      && (!Truthy(Field(e, "vendorName")) ==> r["vendorName"] == Str(UnknownVendor))
      && (Truthy(Field(e, "date")) ==> r["date"] == e["date"])
      && (!Truthy(Field(e, "date")) ==> r["date"] == Str(now))
      && (Truthy(Field(e, "total")) ==> r["total"] == e["total"])
      && (!Truthy(Field(e, "total")) ==> r["total"] == Num(0.0))
      && (Truthy(Field(e, "currency")) ==> r["currency"] == e["currency"])
      && (!Truthy(Field(e, "currency")) ==> r["currency"] == Str(DefaultCurrency))
      && Field(r, "category") == Field(e, "category")
      && r["extractedData"] == extracted
      && r["id"] == Str(id) && r["imageUrl"] == Str(imageUrl)
      && r["createdAt"] == Str(now) && r["updatedAt"] == Str(now)
  {
  }

  /** A well-formed extraction gives a well-formed receipt. */
  lemma ReceiptFromIsReceipt(e: Record, id: string, now: string, imageUrl: string)
    requires IsReceiptExtract(e)
    ensures ReceiptFrom(Obj(e), id, now, imageUrl).Some?
    ensures IsReceipt(ReceiptFrom(Obj(e), id, now, imageUrl).value)
  {
  }

  /**
   * The upload handler after extraction: the receipt is added at the front
   * of the archive; on a null result the handler stops with nothing saved.
   */
  method UploadReceipt(store: Store.DataStore, extracted: Value, id: string, now: string, imageUrl: string)
    returns (saved: bool)
    modifies store
    ensures saved <==> ReceiptFrom(extracted, id, now, imageUrl).Some?
    ensures !saved ==> store.docs == old(store.docs)
    ensures saved ==> store.docs == Store.Stored(old(store.docs), store.Key(),
      Store.AddTo(old(store.Current()), Store.Receipts, ReceiptFrom(extracted, id, now, imageUrl).value))
  {
    var receipt := ReceiptFrom(extracted, id, now, imageUrl);
    if receipt.None? {
      return false;
    }
    store.AddItem(Store.Receipts, receipt.value);
    saved := true;
  }

  /** `loadReceipts`. */
  method LoadReceipts(store: Store.DataStore) returns (receipts: seq<Record>)
    ensures receipts == store.Current().receipts
  {
    var db := store.Get();
    receipts := db.receipts;
  }

  /** A saved upload is the first receipt the archive then lists. */
  lemma UploadListedFirst(docs: map<string, Store.Blob>, key: string, d: Store.Document, initial: Store.Document, r: Record)
    ensures var e := Store.Fetch(Some(key), Store.Stored(docs, Some(key), Store.AddTo(d, Store.Receipts, r)), initial);
      |e.receipts| == |d.receipts| + 1 && e.receipts[0] == r && e.receipts[1..] == d.receipts
  {
    Store.SavedIsFetched(docs, key, Store.AddTo(d, Store.Receipts, r), initial);
    Store.AddToSpec(d, Store.Receipts, r);
  }

  // ---------------------------------------------------------------- manual bill

  /** The manual bill for the form's fields. */
  function ManualBill(p: Platform, payee: string, amount: string, dueDate: string, autopay: bool,
                      recurrence: Recurrence, id: string, now: string): Record
  {
    map[
      "id" := Str(id),
      "payee" := Str(payee),
      "amount" := Num(p.parseNumber(amount)),
      "currency" := Str(DefaultCurrency),
      "dueDate" := Str(dueDate),
      "autopay" := Bool(autopay),
      "recurrence" := Str(RecurrenceName(recurrence)),
      "reminderCadence" := Arr([Str("3d"), Str("1d")]),
      "status" := Str(BillStatusName(Scheduled)),
      "createdAt" := Str(now),
      "updatedAt" := Str(now)]
  }

  /**
   * A manual bill is a well-formed, scheduled, unsnoozed USD bill with the
   * entered payee, amount, due date, autopay and recurrence, reminded three
   * days and one day ahead.
   */
  lemma ManualBillSpec(p: Platform, payee: string, amount: string, dueDate: string, autopay: bool,
                       recurrence: Recurrence, id: string, now: string)
    ensures var b := ManualBill(p, payee, amount, dueDate, autopay, recurrence, id, now);
      && IsBill(b)
      && Field(b, "status") == Str("scheduled") && Field(b, "snoozedUntil") == Undefined
      && Field(b, "payee") == Str(payee) && Field(b, "amount") == Num(p.parseNumber(amount))
      && Field(b, "dueDate") == Str(dueDate) && Field(b, "dueTime") == Undefined
      && Field(b, "currency") == Str("USD") && Field(b, "autopay") == Bool(autopay)
      && Field(b, "recurrence") == Str(RecurrenceName(recurrence))
      && Field(b, "reminderCadence") == Arr([Str("3d"), Str("1d")])
  {
    var b := ManualBill(p, payee, amount, dueDate, autopay, recurrence, id, now);
    assert "dueTime" !in b && "snoozedUntil" !in b && "paidAt" !in b;
    assert "consequencesText" !in b && "proofNote" !in b;
    assert IsBaseItem(b);
    assert IsStringArray(Field(b, "reminderCadence"));
    assert IsOptRecurrence(Field(b, "recurrence"));
    assert IsBillStatus(Field(b, "status"));
  }

  /** The add-bill form: its fields and whether it is open. */
  class BillForm {
    var payee: string
    var amount: string
    var dueDate: string
    var autopay: bool
    var recurrence: Recurrence
    var adding: bool

    /** The form as first shown, due today. */
    constructor (today: string)
      ensures payee == "" && amount == "" && dueDate == today && !autopay
      ensures recurrence == NoRecurrence && !adding
    {
      payee, amount, dueDate := "", "", today;
      autopay, recurrence, adding := false, NoRecurrence, false;
    }

    /** The "Add Bill" button. */
    method Open()
      modifies this
      ensures adding
      ensures payee == old(payee) && amount == old(amount) && dueDate == old(dueDate)
      ensures autopay == old(autopay) && recurrence == old(recurrence)
    {
      adding := true;
    }

    /**
     * `handleManualBillSubmit`: with an empty payee or amount nothing
     * happens; otherwise the bill is added at the front of the bills, the
     * form closes and is reset, due today.
     */
    method Submit(store: Store.DataStore, p: Platform, id: string, now: string, today: string)
      modifies this, store
      ensures old(payee) == "" || old(amount) == "" ==>
        && store.docs == old(store.docs)
        && payee == old(payee) && amount == old(amount) && dueDate == old(dueDate)
        && autopay == old(autopay) && recurrence == old(recurrence) && adding == old(adding)
      ensures old(payee) != "" && old(amount) != "" ==>
        && store.docs == Store.Stored(old(store.docs), old(store.Key()), Store.AddTo(old(store.Current()), Store.Bills,
             ManualBill(p, old(payee), old(amount), old(dueDate), old(autopay), old(recurrence), id, now)))
        && payee == "" && amount == "" && dueDate == today && !autopay && recurrence == NoRecurrence && !adding
    {
      if payee == "" || amount == "" {
        return;
      }
      var bill := ManualBill(p, payee, amount, dueDate, autopay, recurrence, id, now);
      store.AddItem(Store.Bills, bill);
      adding := false;
      payee, amount, dueDate, autopay, recurrence := "", "", today, false, NoRecurrence;
    }
  }

  // ---------------------------------------------------------------- CSV export

  const CsvHeaders: seq<string> := ["Date", "Vendor", "Total", "Currency", "Category"]

  /** The five cells of the data row, as `join` renders them. */
  function CsvCells(p: Platform, r: Record): (cells: seq<string>)
    ensures |cells| == |CsvHeaders|
  {
    var vs := [Field(r, "date"), Field(r, "vendorName"), Field(r, "total"), Field(r, "currency"),
               Or(Field(r, "category"), Str(""))];
    seq(|vs|, i requires 0 <= i < |vs| => JoinPart(p, vs[i]))
  }

  /** The CSV text: the header line, a newline, the data row. */
  function CsvContent(p: Platform, r: Record): string {
    JoinStrings(CsvHeaders, ",") + "\n" + JoinStrings(CsvCells(p, r), ",")
  }

  /** The link target and the file name of the export. */
  function ExportUri(p: Platform, r: Record): string {
    "data:text/csv;charset=utf-8," + CsvContent(p, r)
  }

  function ExportName(p: Platform, r: Record): string {
    "receipt_" + Text(p, Field(r, "vendorName")) + ".csv"
  }

  /** Both lines of a two-line table read back when no cell holds a separator. */
  lemma {:induction false} TableReadsBack(headers: seq<string>, cells: seq<string>)
    requires |headers| > 0 && |cells| > 0
    requires forall k :: 0 <= k < |headers| ==> ',' !in headers[k] && '\n' !in headers[k]
    requires forall k :: 0 <= k < |cells| ==> ',' !in cells[k] && '\n' !in cells[k]
    ensures var lines := Split(JoinStrings(headers, ",") + "\n" + JoinStrings(cells, ","), '\n');
      |lines| == 2 && Split(lines[0], ',') == headers && Split(lines[1], ',') == cells
  {
    var header := JoinStrings(headers, ",");
    var row := JoinStrings(cells, ",");
    JoinHasNoChar(headers, ',', '\n');
    JoinHasNoChar(cells, ',', '\n');
    assert JoinStrings([header, row], "\n") == header + "\n" + row;
    SplitJoin([header, row], '\n');
    SplitJoin(headers, ',');
    SplitJoin(cells, ',');
  }

  /**
   * When no cell contains a comma or a newline, the export reads back as
   * two lines, the five headers and the receipt's five cells. Cells are
   * not quoted, so the condition is needed.
   */
  lemma CsvReadsBack(p: Platform, r: Record)
    requires forall k :: 0 <= k < |CsvCells(p, r)| ==> ',' !in CsvCells(p, r)[k] && '\n' !in CsvCells(p, r)[k]
    ensures var lines := Split(CsvContent(p, r), '\n');
      && |lines| == 2
      && Split(lines[0], ',') == CsvHeaders
      && Split(lines[1], ',') == CsvCells(p, r)
  {
    assert forall k :: 0 <= k < |CsvHeaders| ==> ',' !in CsvHeaders[k] && '\n' !in CsvHeaders[k];
    TableReadsBack(CsvHeaders, CsvCells(p, r));
  }

  /** A missing or empty category exports as an empty cell. */
  lemma MissingCategoryIsEmptyCell(p: Platform, r: Record)
    requires !Truthy(Field(r, "category"))
    ensures CsvCells(p, r)[4] == ""
  {
    assert Or(Field(r, "category"), Str("")) == Str("");
    assert JoinPart(p, Str("")) == "";
  }

  /** Joining pieces free of `x` with a separator other than `x` gives text free of `x`. */
  lemma {:induction false} JoinHasNoChar(ss: seq<string>, c: char, x: char)
    requires c != x
    requires forall k :: 0 <= k < |ss| ==> x !in ss[k]
    ensures x !in JoinStrings(ss, [c])
    decreases |ss|
  {
    if |ss| > 1 {
      JoinHasNoChar(ss[1..], c, x);
      assert JoinStrings(ss, [c]) == ss[0] + [c] + JoinStrings(ss[1..], [c]);
    }
  }
}
