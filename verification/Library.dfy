/** The materialized library row of packages/storage/migrations/library-activity.ts, kept by
    triggers, against the query that backfills it; updates are those the triggers of
    packages/storage/migrations/index.ts permit. */
module Library {
  import opened Common

  type Id = nat

  datatype Collection = Threads | Messages | ThreadStates | Tombstones | Others

  /** The columns and JSON fields that matter here. A message's `fixed` is its parent, role,
      generation and edit origin. */
  datatype Record =
    | Thread(createdAt: Option<int>, recordedAt: Option<int>)
    | Message(thread: Option<Id>, createdAt: Option<int>, recordedAt: Option<int>, fixed: nat, isSealed: bool, content: nat)
    | ThreadState(pinned: Option<bool>, archived: Option<bool>, revision: Option<int>)
    | Tombstone(thread: Option<Id>, root: Option<Id>)
    | Other(content: nat)

  function CollectionOf(r: Record): Collection {
    match r
    case Thread(_, _) => Threads
    case Message(_, _, _, _, _, _) => Messages
    case ThreadState(_, _, _) => ThreadStates
    case Tombstone(_, _) => Tombstones
    case Other(_) => Others
  }

  datatype Key = Key(collection: Collection, id: Id)

  type Records = map<Key, Record>

  /** `activity` is generated: the latest message, or else the thread's creation. */
  datatype Row = Row(created: int, messageActivity: Option<int>, pinned: bool, archived: bool, deleted: bool)

  const EMPTY := Row(0, None, false, false, false)

  function Activity(row: Row): (time: int)
    ensures row.messageActivity == Some(time) || (row.messageActivity.None? && time == row.created)
  {
    if row.messageActivity.Some? then row.messageActivity.value else row.created
  }

  function Coalesce(a: Option<int>, b: Option<int>): Option<int> { if a.Some? then a else b }

  predicate Flag(b: Option<bool>)
    ensures Flag(b) <==> b == Some(true)
  {
    b.Some? && b.value
  }

  /** When a record was created, or failing that recorded. */
  function Recency(r: Record): (time: Option<int>)
    requires r.Thread? || r.Message?
    ensures if r.createdAt.Some? then time == r.createdAt else time == r.recordedAt
  {
    Coalesce(r.createdAt, r.recordedAt)
  }

  // ----- the backfill query -----

  ghost predicate Typed(records: Records) { forall k :: k in records ==> CollectionOf(records[k]) == k.collection }

  ghost predicate MessageOf(records: Records, k: Key, t: Id) {
    k in records && records[k].Message? && records[k].thread == Some(t)
  }

  /** The aggregate maximum, which passes over NULLs. */
  ghost predicate IsLatest(records: Records, t: Id, latest: Option<int>) {
    && (forall k :: MessageOf(records, k, t) && Recency(records[k]).Some? ==> latest.Some? && Recency(records[k]).value <= latest.value)
    && (latest.Some? ==> exists k :: MessageOf(records, k, t) && Recency(records[k]) == latest)
  }

  ghost predicate DeletesThread(r: Record, t: Id) { r.Tombstone? && r.thread == Some(t) && r.root.None? }

  ghost predicate Deleted(records: Records, t: Id) { exists k :: k in records && DeletesThread(records[k], t) }

  ghost predicate IsBackfill(records: Records, t: Id, row: Row) {
    && row.created == (if Key(Threads, t) in records && records[Key(Threads, t)].Thread? && Recency(records[Key(Threads, t)]).Some?
                       then Recency(records[Key(Threads, t)]).value else 0)
    && IsLatest(records, t, row.messageActivity)
    && row.pinned == (Key(ThreadStates, t) in records && records[Key(ThreadStates, t)].ThreadState? && Flag(records[Key(ThreadStates, t)].pinned))
    && row.archived == (Key(ThreadStates, t) in records && records[Key(ThreadStates, t)].ThreadState? && Flag(records[Key(ThreadStates, t)].archived))
    && row.deleted == Deleted(records, t)
  }

  /** The query gives one row. */
  lemma BackfillUnique(records: Records, t: Id, a: Row, b: Row)
    requires IsBackfill(records, t, a) && IsBackfill(records, t, b)
    ensures a == b
  {
    LatestUnique(records, t, a.messageActivity, b.messageActivity);
  }

  lemma LatestUnique(records: Records, t: Id, a: Option<int>, b: Option<int>)
    requires IsLatest(records, t, a) && IsLatest(records, t, b)
    ensures a == b
  {
    if a.Some? {
      var k :| MessageOf(records, k, t) && Recency(records[k]) == a;
    }
    if b.Some? {
      var k :| MessageOf(records, k, t) && Recency(records[k]) == b;
    }
  }

  // ----- triggers -----

  function MaxKnown(a: Option<int>, b: Option<int>): Option<int> {
    if a.None? then b else if b.None? then a else Some(Max(a.value, b.value))
  }

  function RowAt(rows: map<Id, Row>, t: Id): Row { if t in rows then rows[t] else EMPTY }

  /** What the insert triggers do to the rows. */
  function OnInsert(rows: map<Id, Row>, id: Id, r: Record): map<Id, Row> {
    match r
    case Thread(_, _) =>
      rows[id := RowAt(rows, id).(created := if Recency(r).Some? then Recency(r).value else 0)]
    case Message(thread, _, _, _, _, _) =>
      if thread.None? then rows
      else
        var row := RowAt(rows, thread.value);
        rows[thread.value := row.(messageActivity := MaxKnown(row.messageActivity, Recency(r)))]
    case ThreadState(pinned, archived, _) => rows[id := RowAt(rows, id).(pinned := Flag(pinned), archived := Flag(archived))]
    case Tombstone(thread, root) =>
      if thread.None? || root.Some? then rows else rows[thread.value := RowAt(rows, thread.value).(deleted := true)]
    case Other(_) => rows
  }

  /** What the triggers of all other collections make of an update. */
  type Guard = (Records, Id, Record) -> bool

  /** Updates the immutability triggers let through. A missing revision compares to nothing. */
  predicate Permitted(guard: Guard, records: Records, id: Id, after: Record) {
    var key := Key(CollectionOf(after), id);
    && key in records && CollectionOf(records[key]) == CollectionOf(after)
    && match records[key]
       case Thread(_, _) => false
       case Tombstone(_, _) => false
       case Message(thread, createdAt, recordedAt, fixed, isSealed, _) =>
         !isSealed && after.thread == thread && after.createdAt == createdAt && after.recordedAt == recordedAt && after.fixed == fixed
       case ThreadState(_, _, revision) =>
         revision.None? || after.revision.None? || after.revision.value == revision.value + 1
       case Other(_) => guard(records, id, after)
  }

  /** What may change: the content and the seal of a message that is not sealed; a thread state, to
      its next revision where both are known; and what the other triggers let through. */
  lemma UpdatesAre(guard: Guard, records: Records, id: Id, after: Record)
    requires Typed(records)
    ensures Permitted(guard, records, id, after) <==>
      || (exists content, sealing :: UpdatesMessage(records, id, after, content, sealing))
      || (Key(ThreadStates, id) in records && after.ThreadState? &&
            forall from, to :: records[Key(ThreadStates, id)].revision == Some(from) && after.revision == Some(to) ==> to - from == 1)
      || (Key(Others, id) in records && after.Other? && guard(records, id, after))
  {
    if after.Message? && Permitted(guard, records, id, after) {
      assert UpdatesMessage(records, id, after, after.content, after.isSealed);
    }
  }

  predicate UpdatesMessage(records: Records, id: Id, after: Record, content: nat, sealing: bool) {
    && Key(Messages, id) in records && records[Key(Messages, id)].Message? && !records[Key(Messages, id)].isSealed
    && after == records[Key(Messages, id)].(content := content, isSealed := sealing)
  }

  // ----- one more record -----

  ghost predicate Agree(records: Records, rows: map<Id, Row>) {
    && Typed(records)
    && (forall t :: IsBackfill(records, t, RowAt(rows, t)))
    && (forall t :: Key(Threads, t) in records ==> t in rows)
  }

  /** The aggregate after one more message. */
  lemma LatestMore(records: Records, k: Key, r: Record, t: Id, latest: Option<int>)
    requires IsLatest(records, t, latest) && k !in records
    ensures r.Message? && r.thread == Some(t) ==> IsLatest(records[k := r], t, MaxKnown(latest, Recency(r)))
    ensures !(r.Message? && r.thread == Some(t)) ==> IsLatest(records[k := r], t, latest)
  {
    var next := records[k := r];
    var after := if r.Message? && r.thread == Some(t) then MaxKnown(latest, Recency(r)) else latest;
    forall j | MessageOf(next, j, t) && Recency(next[j]).Some? ensures after.Some? && Recency(next[j]).value <= after.value {
      if j != k {
        assert MessageOf(records, j, t);
      }
    }
    if after.Some? {
      if after == latest {
        var j :| MessageOf(records, j, t) && Recency(records[j]) == latest;
        assert MessageOf(next, j, t) && next[j] == records[j];
      } else {
        assert MessageOf(next, k, t) && Recency(next[k]) == after;
      }
    }
  }

  lemma DeletedMore(records: Records, k: Key, r: Record, t: Id)
    requires k !in records
    ensures Deleted(records[k := r], t) <==> DeletesThread(r, t) || Deleted(records, t)
  {
    var next := records[k := r];
    if DeletesThread(r, t) {
      assert k in next && DeletesThread(next[k], t);
    }
    if Deleted(records, t) {
      var j :| j in records && DeletesThread(records[j], t);
      assert j in next && DeletesThread(next[j], t);
    }
  }

  /** An insert's trigger brings every row to what the query gives afterwards. */
  lemma InsertKeeps(records: Records, rows: map<Id, Row>, id: Id, r: Record)
    requires Agree(records, rows) && Key(CollectionOf(r), id) !in records
    ensures Agree(records[Key(CollectionOf(r), id) := r], OnInsert(rows, id, r))
  {
    var key := Key(CollectionOf(r), id);
    var next, after := records[key := r], OnInsert(rows, id, r);
    forall t ensures IsBackfill(next, t, RowAt(after, t)) {
      assert IsBackfill(records, t, RowAt(rows, t));
      LatestMore(records, key, r, t, RowAt(rows, t).messageActivity);
      DeletedMore(records, key, r, t);
      hide IsLatest, DeletesThread, Deleted;
      RowMore(rows, id, r, t);
    }
  }

  /** What an insert's trigger does to one row. */
  lemma RowMore(rows: map<Id, Row>, id: Id, r: Record, t: Id)
    ensures var before, after := RowAt(rows, t), RowAt(OnInsert(rows, id, r), t);
      && after.created == (if r.Thread? && id == t then (if Recency(r).Some? then Recency(r).value else 0) else before.created)
      && after.messageActivity == (if r.Message? && r.thread == Some(t) then MaxKnown(before.messageActivity, Recency(r)) else before.messageActivity)
      && after.pinned == (if r.ThreadState? && id == t then Flag(r.pinned) else before.pinned)
      && after.archived == (if r.ThreadState? && id == t then Flag(r.archived) else before.archived)
      && after.deleted == (before.deleted || DeletesThread(r, t))
  {
  }

  /** A permitted update changes no latest message and no deletion. */
  lemma UpdateSame(guard: Guard, records: Records, id: Id, r: Record, t: Id, latest: Option<int>)
    requires Permitted(guard, records, id, r) && IsLatest(records, t, latest)
    ensures IsLatest(records[Key(CollectionOf(r), id) := r], t, latest)
    ensures Deleted(records[Key(CollectionOf(r), id) := r], t) <==> Deleted(records, t)
  {
    var key := Key(CollectionOf(r), id);
    var next := records[key := r];
    forall j ensures MessageOf(next, j, t) == MessageOf(records, j, t)
      ensures MessageOf(next, j, t) ==> Recency(next[j]) == Recency(records[j])
    {
    }
    forall j | j in records ensures DeletesThread(next[j], t) == DeletesThread(records[j], t) {
    }
    if Deleted(records, t) {
      var j :| j in records && DeletesThread(records[j], t);
      assert j in next && DeletesThread(next[j], t);
    }
  }

  /** And a permitted update's trigger does as much. */
  lemma UpdateKeeps(guard: Guard, records: Records, rows: map<Id, Row>, id: Id, r: Record)
    requires Agree(records, rows) && Permitted(guard, records, id, r)
    ensures Agree(records[Key(CollectionOf(r), id) := r], if r.ThreadState? then OnInsert(rows, id, r) else rows)
  {
    var key := Key(CollectionOf(r), id);
    var next, after := records[key := r], if r.ThreadState? then OnInsert(rows, id, r) else rows;
    forall t ensures IsBackfill(next, t, RowAt(after, t)) {
      assert IsBackfill(records, t, RowAt(rows, t));
      UpdateSame(guard, records, id, r, t, RowAt(rows, t).messageActivity);
      hide IsLatest, DeletesThread, Deleted;
      if r.ThreadState? {
        RowMore(rows, id, r, t);
      }
    }
  }

  /** The primary key is taken; or, thread states apart, the identity is, by any collection. */
  predicate Taken(records: Records, id: Id, r: Record) {
    || Key(CollectionOf(r), id) in records
    || (!r.ThreadState? && exists k :: k in records && k.id == id && k.collection != ThreadStates)
  }

  class Database {
    const guard: Guard
    var records: Records
    var rows: map<Id, Row>

    /** Every row, of an existing thread or of one yet to come, is what the query would give. */
    ghost predicate Inv()
      reads this
    {
      Agree(records, rows)
    }

    constructor (guard: Guard)
      ensures Inv() && records == map[] && this.guard == guard
    {
      this.guard := guard;
      records, rows := map[], map[];
    }

    method Insert(id: Id, r: Record) returns (ok: bool)
      requires Inv()
      modifies this
      ensures Inv()
      ensures ok == !Taken(old(records), id, r)
      ensures ok ==> records == old(records)[Key(CollectionOf(r), id) := r] && rows == OnInsert(old(rows), id, r)
      ensures !ok ==> records == old(records) && rows == old(rows)
    {
      var key := Key(CollectionOf(r), id);
      if key in records || (!r.ThreadState? && exists k :: k in records && k.id == id && k.collection != ThreadStates) {
        return false;
      }
      InsertKeeps(records, rows, id, r);
      records := records[key := r];
      rows := OnInsert(rows, id, r);
      return true;
    }

    method Update(id: Id, r: Record) returns (ok: bool)
      requires Inv()
      modifies this
      ensures Inv()
      ensures ok == Permitted(guard, old(records), id, r)
      ensures ok ==> records == old(records)[Key(CollectionOf(r), id) := r] && rows == (if r.ThreadState? then OnInsert(old(rows), id, r) else old(rows))
      ensures !ok ==> records == old(records) && rows == old(rows)
    {
      if !Permitted(guard, records, id, r) {
        return false;
      }
      UpdateKeeps(guard, records, rows, id, r);
      records := records[Key(CollectionOf(r), id) := r];
      if r.ThreadState? {
        rows := OnInsert(rows, id, r);
      }
      return true;
    }
  }

  // ----- whole histories -----

  datatype Operation = Insertion(id: Id, record: Record) | Change(id: Id, record: Record)

  /** The records after one operation, applied or refused. */
  function After(guard: Guard, records: Records, o: Operation): Records {
    var key := Key(CollectionOf(o.record), o.id);
    match o
    case Insertion(id, r) => if Taken(records, id, r) then records else records[key := r]
    case Change(id, r) => if Permitted(guard, records, id, r) then records[key := r] else records
  }

  function History(guard: Guard, operations: seq<Operation>): Records {
    if operations == [] then map[]
    else After(guard, History(guard, operations[..|operations| - 1]), operations[|operations| - 1])
  }

  lemma HistoryMore(guard: Guard, operations: seq<Operation>, i: nat)
    requires i < |operations|
    ensures History(guard, operations[..i + 1]) == After(guard, History(guard, operations[..i]), operations[i])
  {
    assert operations[..i + 1][..i] == operations[..i];
  }

  /** After any sequence of inserts and updates, refused ones included, every thread that
      exists has a row, and it is the row the backfill query gives. */
  method Run(guard: Guard, operations: seq<Operation>) returns (records: Records, rows: map<Id, Row>)
    ensures records == History(guard, operations)
    ensures forall t :: Key(Threads, t) in records ==> t in rows && IsBackfill(records, t, rows[t])
    ensures forall t, row :: Key(Threads, t) in records && IsBackfill(records, t, row) ==> rows[t] == row
  {
    hide IsBackfill, OnInsert, Permitted, Taken, History;
    var database := new Database(guard);
    assert operations[..0] == [] && History(guard, []) == map[] by { NothingHappened(guard); }
    for i := 0 to |operations|
      invariant database.Inv() && fresh(database) && database.guard == guard
      invariant database.records == History(guard, operations[..i])
    {
      HistoryMore(guard, operations, i);
      var ok: bool;
      match operations[i] {
        case Insertion(id, record) => ok := database.Insert(id, record);
        case Change(id, record) => ok := database.Update(id, record);
      }
    }
    assert operations[..|operations|] == operations;
    records, rows := database.records, database.rows;
    assert forall t :: t in rows ==> RowAt(rows, t) == rows[t];
    forall t, row | Key(Threads, t) in records && IsBackfill(records, t, row) ensures rows[t] == row {
      assert IsBackfill(records, t, RowAt(rows, t));
      BackfillUnique(records, t, rows[t], row);
    }
  }

  lemma NothingHappened(guard: Guard)
    ensures History(guard, []) == map[]
  {
  }

  /** What no operation can undo: threads, tombstones and sealed messages stay as they are, a
      message stays where it is; and where every thread state names its revision, the later has
      the higher one or is the same. */
  predicate Survives(before: Record, after: Record, revised: bool) {
    && CollectionOf(before) == CollectionOf(after)
    && (before.Thread? || before.Tombstone? || (before.Message? && before.isSealed) ==> after == before)
    && (before.Message? ==> after.thread == before.thread && after.createdAt == before.createdAt && after.recordedAt == before.recordedAt && after.fixed == before.fixed)
    && (before.ThreadState? && revised && before.revision.Some? && after.revision.Some? ==>
          before.revision.value < after.revision.value || after == before)
  }

  /** Every thread state of these operations names its revision. */
  predicate Revised(operations: seq<Operation>) { forall o :: o in operations && o.record.ThreadState? ==> o.record.revision.Some? }

  lemma {:induction false} HistoryTyped(guard: Guard, operations: seq<Operation>)
    ensures Typed(History(guard, operations))
    ensures Revised(operations) ==> forall k :: k in History(guard, operations) && History(guard, operations)[k].ThreadState? ==> History(guard, operations)[k].revision.Some?
  {
    hide Permitted, Taken;
    if operations != [] {
      var front, last := operations[..|operations| - 1], operations[|operations| - 1];
      HistoryTyped(guard, front);
      assert last in operations && forall o :: o in front ==> o in operations;
    }
  }

  /** Nothing recorded is lost, and what cannot be undone is not, in any history. */
  lemma {:induction false} NothingUndone(guard: Guard, operations: seq<Operation>, i: nat, k: Key)
    requires i <= |operations| && k in History(guard, operations[..i])
    ensures k in History(guard, operations)
    ensures Survives(History(guard, operations[..i])[k], History(guard, operations)[k], Revised(operations))
    decreases |operations|
  {
    hide History;
    var n := |operations|;
    if i == n {
      assert operations[..i] == operations;
    } else {
      var front := operations[..n - 1];
      assert front[..i] == operations[..i] && operations[..n] == operations;
      NothingUndone(guard, front, i, k);
      HistoryMore(guard, operations, n - 1);
      HistoryTyped(guard, front);
      HistoryTyped(guard, operations[..i]);
      assert Revised(operations) ==> Revised(operations[..i]) && Revised(front);
      OneSurvives(guard, History(guard, front), operations[n - 1], k);
      assert operations[n - 1] in operations;
    }
  }

  lemma OneSurvives(guard: Guard, records: Records, o: Operation, k: Key)
    requires Typed(records) && k in records
    ensures k in After(guard, records, o) && Survives(records[k], After(guard, records, o)[k], true)
  {
  }

  ghost predicate OneEach(records: Records) {
    forall j, k :: j in records && k in records && j.id == k.id && j.collection != ThreadStates && k.collection != ThreadStates ==> j == k
  }

  /** An insert is refused exactly when it would overwrite a record or use an identity twice. */
  lemma InsertsAre(records: Records, id: Id, r: Record)
    requires OneEach(records)
    ensures Taken(records, id, r) <==> Key(CollectionOf(r), id) in records || !OneEach(records[Key(CollectionOf(r), id) := r])
  {
    var key := Key(CollectionOf(r), id);
    var next := records[key := r];
    if key !in records {
      if Taken(records, id, r) {
        var k :| k in records && k.id == id && k.collection != ThreadStates;
        assert k in next && key in next;
      } else {
        forall j, k | j in next && k in next && j.id == k.id && j.collection != ThreadStates && k.collection != ThreadStates ensures j == k {
          assert j != key ==> j in records;
          assert k != key ==> k in records;
        }
      }
    }
  }

  lemma OneMoreEach(guard: Guard, records: Records, o: Operation)
    requires OneEach(records)
    ensures OneEach(After(guard, records, o))
  {
    var key := Key(CollectionOf(o.record), o.id);
    var next := After(guard, records, o);
    forall j, k | j in next && k in next && j.id == k.id && j.collection != ThreadStates && k.collection != ThreadStates ensures j == k {
      assert j != key ==> j in records;
      assert k != key ==> k in records;
    }
  }

  /** No identity is used twice, thread states apart, in any history. */
  lemma {:induction false} IdentitiesDiffer(guard: Guard, operations: seq<Operation>)
    ensures OneEach(History(guard, operations))
  {
    hide OneEach, After;
    if operations == [] {
      NothingTwice();
    } else {
      IdentitiesDiffer(guard, operations[..|operations| - 1]);
      OneMoreEach(guard, History(guard, operations[..|operations| - 1]), operations[|operations| - 1]);
    }
  }

  lemma NothingTwice()
    ensures OneEach(map[])
  {
  }

  /** Rows that agree with the same records agree on every thread: the order in which thread,
      message, state and tombstone arrived leaves no trace. */
  lemma OrderLeavesNoTrace(records: Records, a: map<Id, Row>, b: map<Id, Row>, t: Id)
    requires Agree(records, a) && Agree(records, b) && Key(Threads, t) in records
    ensures t in a && t in b && a[t] == b[t] && Activity(a[t]) == Activity(b[t])
  {
    assert IsBackfill(records, t, RowAt(a, t)) && IsBackfill(records, t, RowAt(b, t));
    BackfillUnique(records, t, a[t], b[t]);
  }
}
