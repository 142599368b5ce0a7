/**
 * The per-user document store (services/dataStore.ts).
 *
 * Browser storage is an abstract map from storage keys to stored blobs; a
 * blob is either a document or a text that does not parse as one. The key of
 * the active partition is derived from the session of an `AuthService`.
 * Every mutation reads the whole document, changes it and writes it back.
 * Records stay plain JSON objects (`Js.Record`), as the TypeScript handles
 * them (`any[]`), so the operations are generic over the six collections.
 */
module Store {
  import opened Common
  import opened Js
  import opened Types
  import Auth

  const StoragePrefix: string := "focuspilot_db_"

  /** The six array-valued keys of a document. */
  datatype Collection = Tasks | Bills | Events | Notes | Receipts | Summaries

  /** One user's document: six collections and the settings object. */
  datatype Document = Document(
    tasks: seq<Record>,
    bills: seq<Record>,
    events: seq<Record>,
    notes: seq<Record>,
    receipts: seq<Record>,
    summaries: seq<Record>,
    settings: Record)
  {
    /** `db[collection]`. */
    function Items(c: Collection): seq<Record> {
      match c
      case Tasks => tasks
      case Bills => bills
      case Events => events
      case Notes => notes
      case Receipts => receipts
      case Summaries => summaries
    }

    /** `db[collection] = xs`: the other collections and the settings stay. */
    function WithItems(c: Collection, xs: seq<Record>): (d: Document)
      ensures d.Items(c) == xs
      ensures forall o :: o != c ==> d.Items(o) == Items(o)
      ensures d.settings == settings
    {
      match c
      case Tasks => this.(tasks := xs)
      case Bills => this.(bills := xs)
      case Events => this.(events := xs)
      case Notes => this.(notes := xs)
      case Receipts => this.(receipts := xs)
      case Summaries => this.(summaries := xs)
    }
  }

  /** DEFAULT_SETTINGS; the time zone is the host's, read once at load. */
  function DefaultSettings(zone: string): (r: Record)
    ensures IsSettings(r)
    ensures Field(r, "notificationsEnabled") == Bool(false) && Field(r, "currency") == Str("USD")
  {
    map[
      "timezone" := Str(zone),
      "workHoursStart" := Str("09:00"),
      "workHoursEnd" := Str("17:00"),
      "notificationsEnabled" := Bool(false),
      "currency" := Str("USD")]
  }

  /** INITIAL_DB: every collection empty, default settings. */
  function InitialDocument(zone: string): (d: Document)
    ensures forall c :: d.Items(c) == []
    ensures IsSettings(d.settings)
  {
    Document([], [], [], [], [], [], DefaultSettings(zone))
  }

  /** The storage key of the signed-in user's partition, if anyone is signed in. */
  function UserKey(session: Option<Auth.User>): Option<string> {
    match session
    case None => None
    case Some(u) => Some(StoragePrefix + u.id)
  }

  /** Distinct user ids select distinct partitions. */
  lemma UserKeyInjective(u: Auth.User, v: Auth.User)
    ensures UserKey(Some(u)) == UserKey(Some(v)) <==> u.id == v.id
  {
    if UserKey(Some(u)) == UserKey(Some(v)) {
      var k := StoragePrefix + u.id;
      assert k[|StoragePrefix|..] == u.id;
      assert (StoragePrefix + v.id)[|StoragePrefix|..] == v.id;
    }
  }

  /** What browser storage holds under a key. */
  datatype Blob =
    | Doc(doc: Document)
    /** A text that `JSON.parse` rejects (or the empty string). */
    | Raw(text: string)

  /** `!localStorage.getItem(key)`: nothing, or an empty string, is stored. */
  predicate Vacant(docs: map<string, Blob>, key: string) {
    key !in docs || docs[key] == Raw("")
  }

  /**
   * What `get` returns: the stored document, or the initial document when
   * nobody is signed in, nothing is stored, or the stored text does not parse.
   */
  function Fetch(key: Option<string>, docs: map<string, Blob>, initial: Document): Document {
    if key.Some? && key.value in docs && docs[key.value].Doc? then docs[key.value].doc
    else initial
  }

  /** What `save` leaves in storage: nothing happens without a key. */
  function Stored(docs: map<string, Blob>, key: Option<string>, d: Document): (r: map<string, Blob>)
    ensures key.None? ==> r == docs
    ensures key.Some? ==> r.Keys == docs.Keys + {key.value} && r[key.value] == Doc(d)
    ensures forall k :: k in docs && Some(k) != key ==> k in r && r[k] == docs[k]
  {
    if key.Some? then docs[key.value := Doc(d)] else docs
  }

  /** A saved document is what the next `get` from the same partition returns. */
  lemma SavedIsFetched(docs: map<string, Blob>, key: string, d: Document, initial: Document)
    ensures Fetch(Some(key), Stored(docs, Some(key), d), initial) == d
  {
  }

  /** Another partition's `get` is not affected by a save. */
  lemma SaveIsolatesPartitions(docs: map<string, Blob>, key: string, other: string, d: Document, initial: Document)
    requires other != key
    ensures Fetch(Some(other), Stored(docs, Some(key), d), initial) == Fetch(Some(other), docs, initial)
  {
  }

  // ---------------------------------------------------------------- addItem

  /** `db[collection].unshift(item)`. */
  function AddTo(d: Document, c: Collection, item: Record): Document {
    d.WithItems(c, [item] + d.Items(c))
  }

  /** The new item is first, the old items follow in order, nothing else changes. */
  lemma AddToSpec(d: Document, c: Collection, item: Record)
    ensures |AddTo(d, c, item).Items(c)| == |d.Items(c)| + 1
    ensures AddTo(d, c, item).Items(c)[0] == item
    ensures AddTo(d, c, item).Items(c)[1..] == d.Items(c)
    ensures forall o :: o != c ==> AddTo(d, c, item).Items(o) == d.Items(o)
    ensures AddTo(d, c, item).settings == d.settings
  {
  }

  // ---------------------------------------------------------------- updateItem

  /** `list.findIndex(i => i.id === id)`. */
  function IndexOfId(xs: seq<Record>, id: Value): (r: Option<nat>)
    ensures r.Some? ==> r.value < |xs| && Field(xs[r.value], "id") == id
    ensures r.Some? ==> forall j :: 0 <= j < r.value ==> Field(xs[j], "id") != id
    ensures r.None? <==> forall j :: 0 <= j < |xs| ==> Field(xs[j], "id") != id
  {
    if |xs| == 0 then None
    else if Field(xs[0], "id") == id then Some(0)
    else
      match IndexOfId(xs[1..], id)
      case None => None
      case Some(k) => Some(k + 1)
  }

  /** `{ ...prev, ...patch, updatedAt: stamp }`. */
  function Merged(prev: Record, patch: Record, stamp: string): (r: Record)
    ensures r.Keys == prev.Keys + patch.Keys + {"updatedAt"}
    ensures Field(r, "updatedAt") == Str(stamp)
    ensures forall k :: k != "updatedAt" && k in patch ==> r[k] == patch[k]
    ensures forall k :: k != "updatedAt" && k !in patch && k in prev ==> r[k] == prev[k]
  {
    prev + patch + map["updatedAt" := Str(stamp)]
  }

  /**
   * The collection after `updateItem`: the first record whose id matches the
   * patch's id is merged with it; `None` when no record matches (and nothing
   * is saved).
   */
  function UpdateIn(d: Document, c: Collection, patch: Record, stamp: string): Option<Document> {
    var xs := d.Items(c);
    match IndexOfId(xs, Field(patch, "id"))
    case None => None
    case Some(i) => Some(d.WithItems(c, xs[i := Merged(xs[i], patch, stamp)]))
  }

  /**
   * `updateItem` changes exactly the first record with the patch's id and
   * keeps the length of the collection; with no such record it changes nothing.
   */
  lemma UpdateInSpec(d: Document, c: Collection, patch: Record, stamp: string)
    ensures (forall j :: 0 <= j < |d.Items(c)| ==> Field(d.Items(c)[j], "id") != Field(patch, "id"))
      <==> UpdateIn(d, c, patch, stamp).None?
    ensures UpdateIn(d, c, patch, stamp).Some? ==>
      var e := UpdateIn(d, c, patch, stamp).value;
      var i := IndexOfId(d.Items(c), Field(patch, "id")).value;
      && |e.Items(c)| == |d.Items(c)|
      && e.Items(c)[i] == Merged(d.Items(c)[i], patch, stamp)
      && (forall j :: 0 <= j < |d.Items(c)| && j != i ==> e.Items(c)[j] == d.Items(c)[j])
      && (forall j :: 0 <= j < i ==> Field(d.Items(c)[j], "id") != Field(patch, "id"))
      && (forall o :: o != c ==> e.Items(o) == d.Items(o))
      && e.settings == d.settings
  {
  }

  // ---------------------------------------------------------------- deleteItem

  /** `list.filter(i => i.id !== id)`. */
  function WithoutId(xs: seq<Record>, id: Value): (r: seq<Record>)
    ensures |r| <= |xs|
    ensures forall k :: 0 <= k < |r| ==> Field(r[k], "id") != id
    ensures forall k :: 0 <= k < |r| ==> r[k] in xs
  {
    if |xs| == 0 then []
    else if Field(xs[0], "id") == id then WithoutId(xs[1..], id)
    else [xs[0]] + WithoutId(xs[1..], id)
  }

  /** Filtering distributes over concatenation: the survivors keep their order. */
  lemma {:induction false} WithoutIdAppend(a: seq<Record>, b: seq<Record>, id: Value)
    ensures WithoutId(a + b, id) == WithoutId(a, id) + WithoutId(b, id)
    decreases |a|
  {
    if |a| > 0 {
      assert (a + b)[0] == a[0];
      assert (a + b)[1..] == a[1..] + b;
      WithoutIdAppend(a[1..], b, id);
      if Field(a[0], "id") != id {
        assert WithoutId(a + b, id) == [a[0]] + WithoutId(a[1..] + b, id);
        assert [a[0]] + (WithoutId(a[1..], id) + WithoutId(b, id))
            == ([a[0]] + WithoutId(a[1..], id)) + WithoutId(b, id);
      }
    } else {
      assert a + b == b;
    }
  }

  /** Every record with a different id survives the deletion. */
  lemma {:induction false} WithoutIdKeeps(xs: seq<Record>, id: Value, x: Record)
    requires x in xs && Field(x, "id") != id
    ensures x in WithoutId(xs, id)
    decreases |xs|
  {
    if xs[0] != x {
      WithoutIdKeeps(xs[1..], id, x);
    }
  }

  /** With no record carrying the id, deleting it leaves the collection as it was. */
  lemma {:induction false} WithoutAbsentId(xs: seq<Record>, id: Value)
    requires forall j :: 0 <= j < |xs| ==> Field(xs[j], "id") != id
    ensures WithoutId(xs, id) == xs
    decreases |xs|
  {
    if |xs| > 0 {
      WithoutAbsentId(xs[1..], id);
    }
  }

  /** With exactly one record carrying the id, deleting removes exactly that record. */
  lemma RemovesExactlyOne(xs: seq<Record>, id: Value, i: nat)
    requires i < |xs| && Field(xs[i], "id") == id
    requires forall j :: 0 <= j < |xs| && j != i ==> Field(xs[j], "id") != id
    ensures WithoutId(xs, id) == xs[..i] + xs[i + 1..]
  {
    assert xs == xs[..i] + ([xs[i]] + xs[i + 1..]);
    WithoutIdAppend(xs[..i], [xs[i]] + xs[i + 1..], id);
    WithoutIdAppend([xs[i]], xs[i + 1..], id);
    WithoutAbsentId(xs[..i], id);
    WithoutAbsentId(xs[i + 1..], id);
  }

  /** `db[collection] = list.filter(...)`. */
  function RemoveFrom(d: Document, c: Collection, id: string): Document {
    d.WithItems(c, WithoutId(d.Items(c), Str(id)))
  }

  // ---------------------------------------------------------------- updateSettings

  /** `db.settings = { ...db.settings, ...patch }`. */
  function MergeSettings(d: Document, patch: Record): (e: Document)
    ensures forall c :: e.Items(c) == d.Items(c)
    ensures e.settings.Keys == d.settings.Keys + patch.Keys
    ensures forall k :: k in patch ==> e.settings[k] == patch[k]
    ensures forall k :: k in d.settings && k !in patch ==> e.settings[k] == d.settings[k]
  {
    d.(settings := d.settings + patch)
  }

  // ---------------------------------------------------------------- seeding

  const OnboardingTitle: string := "Explore FocusPilot features"

  /** The onboarding task that seeding adds. */
  function OnboardingTask(id: string, today: string): (t: Record)
    ensures IsTask(t)
    ensures Field(t, "title") == Str(OnboardingTitle)
    ensures Field(t, "priority") == Str(PriorityName(P1)) && Field(t, "status") == Str(StatusName(Todo))
    ensures Field(t, "tags") == Arr([Str("onboarding")])
  {
    map[
      "id" := Str(id),
      "title" := Str(OnboardingTitle),
      "priority" := Str("P1"),
      "status" := Str("todo"),
      "tags" := Arr([Str("onboarding")]),
      "createdAt" := Str(today),
      "updatedAt" := Str(today)]
  }

  /** Seeding: one onboarding task, pushed only onto an empty task list. */
  function Seeded(d: Document, id: string, today: string): Option<Document> {
    if |d.tasks| > 0 then None else Some(d.(tasks := d.tasks + [OnboardingTask(id, today)]))
  }

  lemma SeededSpec(d: Document, id: string, today: string)
    ensures Seeded(d, id, today).Some? <==> d.tasks == []
    ensures Seeded(d, id, today).Some? ==>
      var e := Seeded(d, id, today).value;
      && e.tasks == [OnboardingTask(id, today)]
      && (forall c :: c != Tasks ==> e.Items(c) == d.Items(c))
      && e.settings == d.settings
  {
  }

  // ---------------------------------------------------------------- the store

  class DataStore {
    /** Where the session comes from. */
    const auth: Auth.AuthService
    /** The host time zone read when the module loaded. */
    const zone: string
    /** The browser storage entries that hold documents. */
    var docs: map<string, Blob>

    constructor (auth: Auth.AuthService, zone: string)
      ensures this.auth == auth && this.zone == zone && docs == map[]
    {
      this.auth := auth;
      this.zone := zone;
      docs := map[];
    }

    /** INITIAL_DB. */
    function Initial(): Document {
      InitialDocument(zone)
    }

    /** The active partition's key. */
    function Key(): Option<string>
      reads auth
    {
      UserKey(auth.session)
    }

    /** The document `get` would return now. */
    function Current(): Document
      reads this, auth
    {
      Fetch(Key(), docs, Initial())
    }

    method GetUserKey() returns (key: Option<string>)
      ensures auth.session.None? ==> key.None?
      ensures auth.session.Some? ==> key == Some(StoragePrefix + auth.session.value.id)
    {
      key := UserKey(auth.session);
    }

    method Get() returns (d: Document)
      ensures d == Current()
      ensures Key().None? || Key().value !in docs || docs[Key().value].Raw? ==> d == Initial()
      ensures Key().Some? && Key().value in docs && docs[Key().value].Doc? ==> d == docs[Key().value].doc
    {
      var key := GetUserKey();
      if key.None? {
        return Initial();
      }
      if key.value !in docs {
        return Initial();
      }
      match docs[key.value]
      case Doc(stored) => d := stored;
      case Raw(_) => d := Initial();
    }

    method Save(d: Document)
      modifies this
      ensures docs == Stored(old(docs), Key(), d)
    {
      var key := GetUserKey();
      if key.None? {
        return;
      }
      docs := docs[key.value := Doc(d)];
    }

    /** Adds the onboarding task when the partition's task list is empty. */
    method SeedSampleData(id: string, today: string)
      modifies this
      ensures Seeded(old(Current()), id, today).None? ==> docs == old(docs)
      ensures Seeded(old(Current()), id, today).Some? ==>
        docs == Stored(old(docs), Key(), Seeded(old(Current()), id, today).value)
    {
      var db := Get();
      if |db.tasks| > 0 {
        return;
      }
      db := db.(tasks := db.tasks + [OnboardingTask(id, today)]);
      Save(db);
    }

    /** Creates a signed-in user's document on first use. */
    method Init(id: string, today: string)
      modifies this
      ensures Key().None? || !Vacant(old(docs), Key().value) ==> docs == old(docs)
      ensures Key().Some? && Vacant(old(docs), Key().value) ==>
        docs == old(docs)[Key().value := Doc(Initial().(tasks := [OnboardingTask(id, today)]))]
    {
      var key := GetUserKey();
      if key.None? || !Vacant(docs, key.value) {
        return;
      }
      docs := docs[key.value := Doc(Initial())];
      assert Current() == Initial();
      assert Initial().tasks + [OnboardingTask(id, today)] == [OnboardingTask(id, today)];
      SeedSampleData(id, today);
    }

    method AddItem(c: Collection, item: Record)
      modifies this
      ensures docs == Stored(old(docs), Key(), AddTo(old(Current()), c, item))
    {
      var db := Get();
      db := db.WithItems(c, [item] + db.Items(c));
      Save(db);
    }

    method UpdateItem(c: Collection, patch: Record, stamp: string)
      modifies this
      ensures UpdateIn(old(Current()), c, patch, stamp).None? ==> docs == old(docs)
      ensures UpdateIn(old(Current()), c, patch, stamp).Some? ==>
        docs == Stored(old(docs), Key(), UpdateIn(old(Current()), c, patch, stamp).value)
    {
      var db := Get();
      var list := db.Items(c);
      var index := IndexOfId(list, Field(patch, "id"));
      if index.Some? {
        list := list[index.value := Merged(list[index.value], patch, stamp)];
        db := db.WithItems(c, list);
        Save(db);
      }
    }

    method DeleteItem(c: Collection, id: string)
      modifies this
      ensures docs == Stored(old(docs), Key(), RemoveFrom(old(Current()), c, id))
    {
      var db := Get();
      db := db.WithItems(c, WithoutId(db.Items(c), Str(id)));
      Save(db);
    }

    method UpdateSettings(patch: Record)
      modifies this
      ensures docs == Stored(old(docs), Key(), MergeSettings(old(Current()), patch))
    {
      var db := Get();
      db := db.(settings := db.settings + patch);
      Save(db);
    }
  }
}
