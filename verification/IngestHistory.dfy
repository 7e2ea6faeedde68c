/** What every sequence of `ingest_payload` calls and pipeline runs keeps: the event counter,
    one visible row per file, and what may be queued. */
module IngestHistory {
  import opened Events
  import opened EventStore
  import opened Ingestion
  import opened Records
  import opened Wrappers

  /** Row ids increase, and the next row gets a larger one. */
  ghost predicate Ordered(db: Db, d: Delivery) {
    InIdOrder(db.events) && forall i | 0 <= i < |db.events| :: db.events[i].id < d.newId
  }

  ghost predicate ScanCovers(db: Db, source: nat, scans: Scans) {
    Rows(db.events, source) <= scans.files
  }

  /** By how much `event_count` exceeds the number of the source's rows. */
  function Drift(db: Db, source: nat): int {
    CountOf(db, source) - Rows(db.events, source)
  }

  // ---------- the scanned rows of a file ----------

  lemma {:induction false} FirstShowingFinds(rows: seq<Event>, name: string)
    ensures FirstShowing(rows, name).None? ==> forall e | e in rows :: e.payload.filename != name
    ensures FirstShowing(rows, name).Some? ==>
              FirstShowing(rows, name).value in rows && FirstShowing(rows, name).value.payload.filename == name
  {
    if rows != [] && rows[0].payload.filename != name {
      FirstShowingFinds(rows[1..], name);
    }
  }

  lemma {:induction false} OtherShowingFinds(rows: seq<Event>, name: string, keep: nat)
    ensures forall id :: id in OtherShowing(rows, name, keep) <==>
                         exists e :: e in rows && e.id == id && id != keep && e.payload.filename == name
  {
    if rows != [] {
      var front, last := rows[..|rows| - 1], rows[|rows| - 1];
      assert rows == front + [last];
      OtherShowingFinds(front, name, keep);
    }
  }

  lemma {:induction false} RecentIdsAreDistinct(events: seq<Event>, source: nat, limit: nat)
    requires InIdOrder(events)
    ensures DistinctIds(Recent(events, source, limit))
  {
    if events != [] && limit != 0 {
      var front, last := events[..|events| - 1], events[|events| - 1];
      RecentIdsAreDistinct(front, source, limit);
      RecentIdsAreDistinct(front, source, limit - 1);
      RecentAreRows(front, source, limit - 1);
      forall e | e in Recent(front, source, limit - 1) ensures e.id != last.id {
        var i :| 0 <= i < |front| && front[i] == e;
        assert events[i].id < events[|events| - 1].id;
      }
    }
  }

  lemma OneMoreInSet(items: seq<nat>, x: nat)
    requires x !in items
    ensures |AsSet(items + [x])| == |AsSet(items)| + 1
  {
    assert AsSet(items + [x]) == AsSet(items) + {x};
  }

  lemma IdIsNotRepeated(rows: seq<Event>, name: string, keep: nat)
    requires rows != [] && DistinctIds(rows)
    ensures rows[|rows| - 1].id !in OtherShowing(rows[..|rows| - 1], name, keep)
  {
    OtherShowingFinds(rows[..|rows| - 1], name, keep);
    assert forall e | e in rows[..|rows| - 1] :: e.id != rows[|rows| - 1].id;
  }

  lemma {:induction false} OtherShowingIsDistinct(rows: seq<Event>, name: string, keep: nat)
    requires DistinctIds(rows)
    ensures |AsSet(OtherShowing(rows, name, keep))| == |OtherShowing(rows, name, keep)|
  {
    if rows != [] {
      OtherShowingIsDistinct(rows[..|rows| - 1], name, keep);
      IdIsNotRepeated(rows, name, keep);
      OneMoreInSet(OtherShowing(rows[..|rows| - 1], name, keep), rows[|rows| - 1].id);
      assert OtherShowing(rows, name, keep) == OtherShowing(rows[..|rows| - 1], name, keep) ||
             OtherShowing(rows, name, keep) == OtherShowing(rows[..|rows| - 1], name, keep) + [rows[|rows| - 1].id];
    } else {
      assert AsSet(OtherShowing(rows, name, keep)) == {};
    }
  }

  /** What `ingest_payload` relies on when it finds a row of the file: the row and its extras are rows of the source. */
  ghost predicate FileRows(db: Db, source: nat, name: string, existing: Event, extras: seq<nat>) {
    && existing in db.events && existing.source == source && existing.payload.filename == name
    && existing.id !in extras
    && |AsSet(extras)| == |extras|
    && (forall id | id in extras :: exists e :: e in db.events && e.id == id && Shows(e, source, name))
  }

  lemma ScannedFileRows(db: Db, source: nat, name: string, scans: Scans)
    requires InIdOrder(db.events)
    requires FirstShowing(Recent(db.events, source, scans.files), name).Some?
    ensures var recent := Recent(db.events, source, scans.files);
            var existing := FirstShowing(recent, name).value;
            FileRows(db, source, name, existing, OtherShowing(recent, name, existing.id))
  {
    var recent := Recent(db.events, source, scans.files);
    var existing := FirstShowing(recent, name).value;
    RecentAreRows(db.events, source, scans.files);
    FirstShowingFinds(recent, name);
    OtherShowingFinds(recent, name, existing.id);
    RecentIdsAreDistinct(db.events, source, scans.files);
    OtherShowingIsDistinct(recent, name, existing.id);
  }

  // ---------- the event counter ----------

  lemma UniqueById(events: seq<Event>, a: Event, b: Event)
    requires InIdOrder(events) && a in events && b in events && a.id == b.id
    ensures a == b
  {
  }

  lemma ReplacedIds(events: seq<Event>, row: Event)
    ensures Ids(Replaced(events, row)) == Ids(events)
    ensures InIdOrder(events) ==> InIdOrder(Replaced(events, row))
  {
    var after := Replaced(events, row);
    forall id | id in Ids(events) ensures id in Ids(after) {
      var i :| 0 <= i < |events| && events[i].id == id;
      assert after[i].id == id && after[i] in after;
    }
    forall id | id in Ids(after) ensures id in Ids(events) {
      var i :| 0 <= i < |after| && after[i].id == id;
      assert events[i].id == id && events[i] in events;
    }
  }

  lemma ReplacedRows(events: seq<Event>, row: Event)
    ensures forall e :: e in Replaced(events, row) <==>
                        (e in events && e.id != row.id) || (e == row && row.id in Ids(events))
  {
    var after := Replaced(events, row);
    forall e | e in events && e.id != row.id ensures e in after {
      var i :| 0 <= i < |events| && events[i] == e;
      assert after[i] == e;
    }
    if row.id in Ids(events) {
      var i :| 0 <= i < |events| && events[i].id == row.id;
      assert after[i] == row;
    }
  }

  lemma RequeueRows(db: Db, source: nat, name: string, existing: Event, extras: seq<nat>, row: Event, other: nat)
    requires InIdOrder(db.events) && FileRows(db, source, name, existing, extras)
    requires row.id == existing.id && row.source == existing.source
    ensures Rows(Without(Replaced(db.events, row), AsSet(extras)), other) ==
            Rows(db.events, other) - if other == source then |extras| else 0
  {
    var updated := Replaced(db.events, row);
    ReplacedIds(db.events, row);
    ReplacedRows(db.events, row);
    forall i | 0 <= i < |db.events| && db.events[i].id == row.id ensures db.events[i].source == row.source {
      UniqueById(db.events, db.events[i], existing);
    }
    RowsOfReplaced(db.events, row, other);
    forall e | e in updated && e.id in AsSet(extras) ensures e.source == source {
      var f :| f in db.events && f.id == e.id && Shows(f, source, name);
      UniqueById(db.events, e, f);
    }
    RowsOfWithout(updated, AsSet(extras), source, other);
    assert AsSet(extras) * Ids(updated) == AsSet(extras) by {
      forall id | id in AsSet(extras) ensures id in Ids(updated) {
        var f :| f in db.events && f.id == id && Shows(f, source, name);
      }
    }
  }

  lemma {:induction false} RowsArePositive(events: seq<Event>, e: Event)
    requires e in events
    ensures Rows(events, e.source) >= 1
  {
    var front, last := events[..|events| - 1], events[|events| - 1];
    assert events == front + [last];
    if last != e {
      RowsArePositive(front, e);
    }
  }

  /** Both branches of the rewrite leave the replaced table without the extra rows. */
  lemma RequeuedEvents(db: Db, d: Delivery, payload: Payload, stored: seq<Cve>, existing: Event, extras: seq<nat>)
    ensures RequeueFile(db, d, payload, stored, existing, extras).events ==
            Without(Replaced(db.events, FileRow(d, payload, stored, existing)), AsSet(extras))
  {
    if extras == [] {
      assert AsSet(extras) == {};
      WithoutNothing(Replaced(db.events, FileRow(d, payload, stored, existing)));
    }
  }

  /** The file's row outlives its extras. */
  lemma RequeueLeavesARow(db: Db, source: nat, name: string, existing: Event, extras: seq<nat>, row: Event)
    requires FileRows(db, source, name, existing, extras) && row.id == existing.id && row.source == source
    ensures Rows(Without(Replaced(db.events, row), AsSet(extras)), source) >= 1
  {
    ReplacedRows(db.events, row);
    WithoutKeepsTheRest(Replaced(db.events, row), AsSet(extras));
    RowsArePositive(Without(Replaced(db.events, row), AsSet(extras)), row);
  }

  /** The clamp `max(1, ...)` never bites while the counter does not lag behind the table. */
  lemma RequeueKeepsDrift(db: Db, d: Delivery, payload: Payload, stored: seq<Cve>, existing: Event, extras: seq<nat>,
                          other: nat)
    requires InIdOrder(db.events) && Drift(db, d.source) >= 0
    requires FileRows(db, d.source, d.payload.filename, existing, extras)
    ensures Drift(RequeueFile(db, d, payload, stored, existing, extras), other) == Drift(db, other)
  {
    var row := FileRow(d, payload, stored, existing);
    RequeuedEvents(db, d, payload, stored, existing, extras);
    RequeueRows(db, d.source, d.payload.filename, existing, extras, row, other);
    RequeueRows(db, d.source, d.payload.filename, existing, extras, row, d.source);
    RequeueLeavesARow(db, d.source, d.payload.filename, existing, extras, row);
  }

  lemma AppendKeepsDrift(db: Db, after: Db, e: Event, other: nat)
    requires after.events == db.events + [e] && after.counts == db.counts[e.source := CountOf(db, e.source) + 1]
    ensures Drift(after, other) == Drift(db, other)
  {
    RowsOfExtended(db.events, e, other);
  }

  /** An added row hides its name, or shows the delivered one when no scanned row did. */
  predicate NewName(db: Db, d: Delivery, scans: Scans, shown: string) {
    shown == "" ||
    (shown == d.payload.filename && FirstShowing(Recent(db.events, d.source, scans.files), shown).None?)
  }

  function FileFound(db: Db, d: Delivery, scans: Scans): Option<Event> {
    if d.payload.filename == "" then None
    else FirstShowing(Recent(db.events, d.source, scans.files), d.payload.filename)
  }

  function Extras(db: Db, d: Delivery, scans: Scans, existing: Event): seq<nat> {
    OtherShowing(Recent(db.events, d.source, scans.files), d.payload.filename, existing.id)
  }

  function StoredPayload(d: Delivery, stored: seq<Cve>): Payload {
    d.payload.(refresh := d.payload.feed, cves := stored)
  }

  /** The delivery rewrites the file's row and queues it again. */
  predicate Requeues(db: Db, d: Delivery, allow: Cve -> bool, scans: Scans) {
    InWindow(d, allow) != [] && FileFound(db, d, scans).Some? && QueuedCves(db, d, allow, scans) != []
  }

  /** One row is added for the delivery's source and counted. */
  ghost predicate Appended(db: Db, d: Delivery, scans: Scans, after: Db, e: Event) {
    && e.source == d.source && e.id == d.newId && after.events == db.events + [e]
    && after.counts == db.counts[e.source := CountOf(db, e.source) + 1]
    && NewName(db, d, scans, e.payload.filename)
  }

  lemma IngestRequeues(db: Db, d: Delivery, allow: Cve -> bool, scans: Scans)
    requires InIdOrder(db.events) && Requeues(db, d, allow, scans)
    ensures var existing, cves := FileFound(db, d, scans).value, InWindow(d, allow);
            && FileRows(db, d.source, d.payload.filename, existing, Extras(db, d, scans, existing))
            && IngestSpec(db, d, allow, scans) ==
               (RequeueFile(db, d, StoredPayload(d, cves), cves, existing, Extras(db, d, scans, existing)),
                Enqueued(existing.id))
  {
    ScannedFileRows(db, d.source, d.payload.filename, scans);
  }

  lemma RecordAppends(db: Db, d: Delivery, payload: Payload, stored: seq<Cve>, hideName: bool, scans: Scans)
    requires payload.filename == d.payload.filename && (FileFound(db, d, scans).Some? ==> hideName)
    ensures exists e :: Appended(db, d, scans, RecordDuplicate(db, d, payload, stored, hideName), e)
  {
    var after := RecordDuplicate(db, d, payload, stored, hideName);
    assert Appended(db, d, scans, after, after.events[|db.events|]);
  }

  lemma QueueAppends(db: Db, d: Delivery, payload: Payload, stored: seq<Cve>, scans: Scans)
    requires payload.filename == d.payload.filename && FileFound(db, d, scans).None?
    ensures exists e :: Appended(db, d, scans, AppendQueued(db, d, payload, stored), e)
  {
    var after := AppendQueued(db, d, payload, stored);
    assert Appended(db, d, scans, after, after.events[|db.events|]);
  }

  lemma IngestAppends(db: Db, d: Delivery, allow: Cve -> bool, scans: Scans)
    requires !Requeues(db, d, allow, scans)
    ensures var after := IngestSpec(db, d, allow, scans).0;
            after == db || exists e :: Appended(db, d, scans, after, e)
  {
    var cves, queued := InWindow(d, allow), QueuedCves(db, d, allow, scans);
    var stored := if d.payload.filename != "" then cves else queued;
    var payload := StoredPayload(d, if stored != [] then stored else cves);
    RecordAppends(db, d, payload, cves, FileFound(db, d, scans).Some?, scans);
    if FileFound(db, d, scans).None? {
      QueueAppends(db, d, payload, stored, scans);
    }
  }

  /** Main result: an ingest never changes how far the counter is ahead of the table, for any source. */
  lemma IngestKeepsDrift(db: Db, d: Delivery, allow: Cve -> bool, scans: Scans, other: nat)
    requires Ordered(db, d) && Drift(db, d.source) >= 0
    ensures Drift(IngestSpec(db, d, allow, scans).0, other) == Drift(db, other)
  {
    var after := IngestSpec(db, d, allow, scans).0;
    if Requeues(db, d, allow, scans) {
      IngestRequeues(db, d, allow, scans);
      var existing, cves := FileFound(db, d, scans).value, InWindow(d, allow);
      RequeueKeepsDrift(db, d, StoredPayload(d, cves), cves, existing, Extras(db, d, scans, existing), other);
    } else {
      IngestAppends(db, d, allow, scans);
      if after != db {
        var e :| Appended(db, d, scans, after, e);
        AppendKeepsDrift(db, after, e, other);
      }
    }
  }

  // ---------- one visible row per file ----------

  ghost predicate OneRowPerFile(events: seq<Event>) {
    forall a, b | a in events && b in events && a.source == b.source
                  && a.payload.filename == b.payload.filename != "" :: a.id == b.id
  }

  lemma AppendKeepsOneRow(db: Db, d: Delivery, scans: Scans, e: Event)
    requires OneRowPerFile(db.events) && ScanCovers(db, d.source, scans)
    requires e.source == d.source && NewName(db, d, scans, e.payload.filename)
    ensures OneRowPerFile(db.events + [e])
  {
    if e.payload.filename != "" {
      RecentCovers(db.events, d.source, scans.files);
      FirstShowingFinds(Recent(db.events, d.source, scans.files), d.payload.filename);
    }
  }

  lemma RowsOfRequeue(db: Db, row: Event, extras: seq<nat>)
    requires InIdOrder(db.events) && row.id in Ids(db.events)
    ensures forall e :: e in Without(Replaced(db.events, row), AsSet(extras)) <==>
                        e.id !in extras && ((e in db.events && e.id != row.id) || e == row)
  {
    ReplacedRows(db.events, row);
    WithoutKeepsTheRest(Replaced(db.events, row), AsSet(extras));
  }

  lemma RequeueKeepsOneRow(db: Db, source: nat, name: string, existing: Event, extras: seq<nat>, row: Event)
    requires InIdOrder(db.events) && OneRowPerFile(db.events) && FileRows(db, source, name, existing, extras)
    requires row.id == existing.id && row.source == source && row.payload.filename == name
    ensures OneRowPerFile(Without(Replaced(db.events, row), AsSet(extras)))
  {
    RowsOfRequeue(db, row, extras);
  }

  /** An ingest keeps at most one row that shows each file of each source. */
  lemma IngestKeepsOneRow(db: Db, d: Delivery, allow: Cve -> bool, scans: Scans)
    requires Ordered(db, d) && ScanCovers(db, d.source, scans) && OneRowPerFile(db.events)
    ensures OneRowPerFile(IngestSpec(db, d, allow, scans).0.events)
  {
    var after := IngestSpec(db, d, allow, scans).0;
    if Requeues(db, d, allow, scans) {
      IngestRequeues(db, d, allow, scans);
      var existing, cves := FileFound(db, d, scans).value, InWindow(d, allow);
      var extras, row := Extras(db, d, scans, existing), FileRow(d, StoredPayload(d, cves), cves, existing);
      RequeueKeepsOneRow(db, d.source, d.payload.filename, existing, extras, row);
      RequeuedEvents(db, d, StoredPayload(d, cves), cves, existing, extras);
    } else {
      IngestAppends(db, d, allow, scans);
      if after != db {
        var e :| Appended(db, d, scans, after, e);
        AppendKeepsOneRow(db, d, scans, e);
      }
    }
  }

  /** The only row that shows the delivered file is queued under this id, with all the file's ids inside the window. */
  ghost predicate OnlyQueuedRow(events: seq<Event>, d: Delivery, cves: seq<Cve>, id: nat) {
    && (forall e | e in events && Shows(e, d.source, d.payload.filename) :: e.id == id)
    && (exists e :: e in events && Shows(e, d.source, d.payload.filename) && e.status.Queued? &&
                    e.payload.duplicate == d.payload.duplicate && e.extracted == e.payload.cves == cves)
  }

  lemma RequeuedFileHasOneRow(db: Db, d: Delivery, allow: Cve -> bool, scans: Scans)
    requires Ordered(db, d) && ScanCovers(db, d.source, scans) && Requeues(db, d, allow, scans)
    ensures var (after, out) := IngestSpec(db, d, allow, scans);
            OnlyQueuedRow(after.events, d, InWindow(d, allow), out.id)
  {
    var name, cves := d.payload.filename, InWindow(d, allow);
    RecentCovers(db.events, d.source, scans.files);
    IngestRequeues(db, d, allow, scans);
    var existing := FileFound(db, d, scans).value;
    var extras, row := Extras(db, d, scans, existing), FileRow(d, StoredPayload(d, cves), cves, existing);
    RequeuedEvents(db, d, StoredPayload(d, cves), cves, existing, extras);
    RowsOfRequeue(db, row, extras);
    OtherShowingFinds(Recent(db.events, d.source, scans.files), name, existing.id);
  }

  lemma AppendedFileHasOneRow(db: Db, d: Delivery, allow: Cve -> bool, scans: Scans)
    requires Ordered(db, d) && ScanCovers(db, d.source, scans) && d.payload.filename != ""
    requires !Requeues(db, d, allow, scans) && IngestSpec(db, d, allow, scans).1.Enqueued?
    ensures var (after, out) := IngestSpec(db, d, allow, scans);
            OnlyQueuedRow(after.events, d, InWindow(d, allow), out.id)
  {
    RecentCovers(db.events, d.source, scans.files);
    FirstShowingFinds(Recent(db.events, d.source, scans.files), d.payload.filename);
    var after := IngestSpec(db, d, allow, scans).0;
    assert after.events[|db.events|].payload.filename == d.payload.filename;
  }

  /** Whatever the table looked like, after a file was queued exactly one row shows its name: the queued one, with all
      the file's ids inside the window, known or not. */
  lemma QueuedFileHasOneRow(db: Db, d: Delivery, allow: Cve -> bool, scans: Scans)
    requires Ordered(db, d) && ScanCovers(db, d.source, scans) && d.payload.filename != ""
    requires IngestSpec(db, d, allow, scans).1.Enqueued?
    ensures var (after, out) := IngestSpec(db, d, allow, scans);
            OnlyQueuedRow(after.events, d, InWindow(d, allow), out.id) && after.enqueued == db.enqueued + [out.id]
  {
    if Requeues(db, d, allow, scans) {
      RequeuedFileHasOneRow(db, d, allow, scans);
      IngestRequeues(db, d, allow, scans);
    } else {
      AppendedFileHasOneRow(db, d, allow, scans);
    }
  }

  /** A feed entry inside the window is queued whether or not its ids are known, and marked as a refresh. */
  lemma FeedEntryIsAlwaysQueued(db: Db, d: Delivery, allow: Cve -> bool, scans: Scans)
    requires d.payload.feed && InWindow(d, allow) != []
    ensures IngestSpec(db, d, allow, scans).1.Enqueued?
    ensures d.payload.filename == "" ==>
              var e := IngestSpec(db, d, allow, scans).0.events[|db.events|];
              e.payload.refresh && e.status.Queued? && e.extracted == InWindow(d, allow)
  {
    assert QueuedCves(db, d, allow, scans) == InWindow(d, allow);
  }

  // ---------- deliveries that are neither files nor feed entries ----------

  lemma {:induction false} FilterKeeps(cves: seq<Cve>, keep: Cve -> bool)
    ensures forall c :: c in Filter(cves, keep) <==> c in cves && keep(c)
  {
    if cves != [] {
      FilterKeeps(cves[..|cves| - 1], keep);
      assert cves == cves[..|cves| - 1] + [cves[|cves| - 1]];
    }
  }

  /** Stored in the database, or carried by a scanned queued or processing row. */
  ghost predicate IsKnown(db: Db, c: Cve, scans: Scans) {
    c in db.vulns || c in Mentioned(PendingRows(db.events, scans.pending))
  }

  /** A plain delivery is queued iff it brings an unknown id; the queued row carries exactly the unknown ones,
      and an all-known delivery leaves a skipped row and an untouched work queue. */
  lemma PlainDeliveryQueuesTheUnknown(db: Db, d: Delivery, allow: Cve -> bool, scans: Scans)
    requires d.payload.filename == "" && !d.payload.feed && InWindow(d, allow) != []
    ensures var (after, out) := IngestSpec(db, d, allow, scans);
            var e := after.events[|db.events|];
            && after.events == db.events + [e] && e.id == d.newId
            && (out.Enqueued? <==> exists c :: c in InWindow(d, allow) && !IsKnown(db, c, scans))
            && (out.Enqueued? ==> e.status.Queued? && e.payload.cves == e.extracted)
            && (out.Enqueued? ==> forall c :: c in e.extracted <==> c in InWindow(d, allow) && !IsKnown(db, c, scans))
            && (!out.Enqueued? ==> e.status.Skipped? && e.payload.duplicate)
            && after.enqueued == db.enqueued + if out.Enqueued? then [e.id] else []
  {
    var cves := InWindow(d, allow);
    var known := Known(db, cves, scans);
    var queued := QueuedCves(db, d, allow, scans);
    FilterKeeps(cves, c => c !in known);
    assert forall c :: c in queued <==> c in cves && !IsKnown(db, c, scans);
    if queued != [] {
      assert queued[0] in queued;
    }
  }

  // ---------- every delivery on the columns ----------

  lemma WindowOnColumns(d: Delivery, allow: Cve -> bool)
    ensures forall c :: c in InWindow(d, allow) <==> (c in d.payload.cves || c in d.textCves) && allow(c)
  {
    FilterKeeps(Dedupe(d.payload.cves + d.textCves), allow);
  }

  /** A delivery is rejected iff it names no id inside the window, and then nothing changes. */
  lemma RejectedIffNothingIsInTheWindow(db: Db, d: Delivery, allow: Cve -> bool, scans: Scans)
    ensures var (after, out) := IngestSpec(db, d, allow, scans);
            && (out.Rejected? <==> forall c | c in d.payload.cves || c in d.textCves :: !allow(c))
            && (out.Rejected? ==> after == db)
  {
    WindowOnColumns(d, allow);
    var cves := InWindow(d, allow);
    if cves != [] {
      assert cves[0] in cves;
    }
  }

  /** How many rows are queued or processing. */
  function PendingCount(events: seq<Event>): nat {
    if events == [] then 0
    else
      PendingCount(events[..|events| - 1]) +
      if events[|events| - 1].status.Queued? || events[|events| - 1].status.Processing? then 1 else 0
  }

  lemma {:induction false} PendingRowsCover(events: seq<Event>, limit: nat)
    requires PendingCount(events) <= limit
    ensures forall e :: e in PendingRows(events, limit) <==> e in events && (e.status.Queued? || e.status.Processing?)
  {
    if events != [] {
      var front, last := events[..|events| - 1], events[|events| - 1];
      assert events == front + [last];
      if last.status.Queued? || last.status.Processing? {
        PendingRowsCover(front, limit - 1);
      } else if limit == 0 {
        PendingRowsCover(front, 0);
      } else {
        PendingRowsCover(front, limit);
      }
    }
  }

  /** The scan of the pending rows sees as many as its limit allows, the newest ones. */
  lemma {:induction false} PendingRowsAreTheNewest(events: seq<Event>, limit: nat)
    requires InIdOrder(events)
    ensures |PendingRows(events, limit)| == if PendingCount(events) < limit then PendingCount(events) else limit
    ensures forall e | e in PendingRows(events, limit) :: e in events && (e.status.Queued? || e.status.Processing?)
    ensures forall e, f | e in PendingRows(events, limit) && f in events && (f.status.Queued? || f.status.Processing?) &&
                          f !in PendingRows(events, limit) :: f.id < e.id
  {
    if events != [] && limit != 0 {
      var front, last := events[..|events| - 1], events[|events| - 1];
      assert events == front + [last];
      OlderThanTheLast(front, last);
      PendingRowsAreTheNewest(front, if last.status.Queued? || last.status.Processing? then limit - 1 else limit);
    }
  }

  /** With a scan that covers the pending rows, an id is known iff it is stored or a queued or processing row carries it. */
  lemma KnownOnColumns(db: Db, c: Cve, scans: Scans)
    requires PendingCount(db.events) <= scans.pending
    ensures IsKnown(db, c, scans) <==>
            c in db.vulns || exists e :: e in db.events && (e.status.Queued? || e.status.Processing?) && c in e.extracted
  {
    PendingRowsCover(db.events, scans.pending);
  }

  /** The delivery brings an id that the program does not know yet. */
  ghost predicate BringsUnknown(db: Db, d: Delivery, allow: Cve -> bool, scans: Scans) {
    exists c :: c in InWindow(d, allow) && !IsKnown(db, c, scans)
  }

  lemma QueuedIffUnknown(db: Db, d: Delivery, allow: Cve -> bool, scans: Scans)
    requires !d.payload.feed
    ensures QueuedCves(db, d, allow, scans) != [] <==> BringsUnknown(db, d, allow, scans)
    ensures forall c :: c in QueuedCves(db, d, allow, scans) <==> c in InWindow(d, allow) && !IsKnown(db, c, scans)
  {
    var cves := InWindow(d, allow);
    var known := Known(db, cves, scans);
    var queued := QueuedCves(db, d, allow, scans);
    FilterKeeps(cves, c => c !in known);
    assert forall c :: c in queued <==> c in cves && !IsKnown(db, c, scans);
    if queued != [] {
      assert queued[0] in queued;
    }
  }

  /** The columns of a row that a delivery adds, apart from its ids and its state. */
  ghost predicate AddedFor(e: Event, d: Delivery) {
    && e.id == d.newId && e.source == d.source && e.received == d.now && e.textCves == d.textCves
    && e.payload.feed == d.payload.feed && e.payload.refresh == (d.payload.feed && !e.payload.duplicate)
  }

  /** A play of this delivery: skipped, with all its ids, under its name or with the name hidden but kept. */
  ghost predicate IsPlayOf(e: Event, d: Delivery, cves: seq<Cve>, hidden: bool) {
    && AddedFor(e, d) && e.status.Skipped? && e.payload.duplicate && e.extracted == e.payload.cves == cves
    && if hidden then e.payload.filename == "" && e.payload.originFilename == d.payload.filename
       else e.payload.filename == d.payload.filename && e.payload.originFilename == d.payload.originFilename
  }

  /** One row is added, and the work queue gets these ids. */
  ghost predicate AddsRow(db: Db, after: Db, e: Event, enqueued: seq<nat>) {
    && after.events == db.events + [e] && after.enqueued == db.enqueued + enqueued
    && after.vulns == db.vulns && after.runs == db.runs
  }

  lemma PlayIsRecorded(db: Db, d: Delivery, payload: Payload, cves: seq<Cve>, hidden: bool)
    requires payload == StoredPayload(d, cves) && (hidden ==> d.payload.filename != "")
    ensures exists e :: IsPlayOf(e, d, cves, hidden) && AddsRow(db, RecordDuplicate(db, d, payload, cves, hidden), e, [])
  {
    var after := RecordDuplicate(db, d, payload, cves, hidden);
    var e := after.events[|db.events|];
    assert IsPlayOf(e, d, cves, hidden) && AddsRow(db, after, e, []);
  }

  /** A delivery that is no feed entry and brings nothing unknown leaves one skipped play that carries all its ids; the
      name of a file whose row is shown is hidden but kept. */
  lemma KnownDeliveryIsRecorded(db: Db, d: Delivery, allow: Cve -> bool, scans: Scans)
    requires InWindow(d, allow) != [] && !d.payload.feed && !BringsUnknown(db, d, allow, scans)
    ensures var (after, out) := IngestSpec(db, d, allow, scans);
            && out == Recorded(d.newId)
            && exists e :: IsPlayOf(e, d, InWindow(d, allow), FileFound(db, d, scans).Some?) && AddsRow(db, after, e, [])
  {
    QueuedIffUnknown(db, d, allow, scans);
    var cves, hidden := InWindow(d, allow), FileFound(db, d, scans).Some?;
    PlayIsRecorded(db, d, StoredPayload(d, cves), cves, hidden);
    assert IngestSpec(db, d, allow, scans) == (RecordDuplicate(db, d, StoredPayload(d, cves), cves, hidden), Recorded(d.newId));
  }

  /** A queued row for this delivery, with all its ids for a file or a feed entry and the unknown ones otherwise. */
  ghost predicate IsQueuedRowOf(db: Db, e: Event, d: Delivery, allow: Cve -> bool, scans: Scans) {
    && AddedFor(e, d) && e.status.Queued? && !e.payload.duplicate && e.payload.filename == d.payload.filename
    && e.extracted == e.payload.cves
    && forall c :: c in e.extracted <==>
         (c in InWindow(d, allow) && (d.payload.feed || d.payload.filename != "" || !IsKnown(db, c, scans)))
  }

  lemma QueuedAsANewRow(db: Db, d: Delivery, allow: Cve -> bool, scans: Scans)
    requires InWindow(d, allow) != [] && FileFound(db, d, scans).None? && !d.payload.duplicate
    requires d.payload.feed || BringsUnknown(db, d, allow, scans)
    ensures var (after, out) := IngestSpec(db, d, allow, scans);
            && out == Enqueued(d.newId)
            && exists e :: IsQueuedRowOf(db, e, d, allow, scans) && AddsRow(db, after, e, [d.newId])
  {
    if !d.payload.feed {
      QueuedIffUnknown(db, d, allow, scans);
    }
    var cves, queued := InWindow(d, allow), QueuedCves(db, d, allow, scans);
    var stored := if d.payload.filename != "" then cves else queued;
    var after := AppendQueued(db, d, StoredPayload(d, stored), stored);
    assert IngestSpec(db, d, allow, scans) == (after, Enqueued(d.newId));
    var e := after.events[|db.events|];
    assert IsQueuedRowOf(db, e, d, allow, scans) && AddsRow(db, after, e, [d.newId]);
  }

  /** What the file's row says after it was rewritten, and that no stored CVE or other source is touched. */
  lemma QueuedAsTheFilesRow(db: Db, d: Delivery, allow: Cve -> bool, scans: Scans)
    requires InIdOrder(db.events) && InWindow(d, allow) != [] && FileFound(db, d, scans).Some?
    requires d.payload.feed || BringsUnknown(db, d, allow, scans)
    ensures var (after, out) := IngestSpec(db, d, allow, scans);
            var old_ := FileFound(db, d, scans).value;
            && out == Enqueued(old_.id) && after.enqueued == db.enqueued + [old_.id] && after.vulns == db.vulns
            && (exists e :: e in after.events && e.id == old_.id && e.source == d.source && e.received == d.now
                            && e.textCves == d.textCves && e.status.Queued? && e.payload.filename == d.payload.filename
                            && e.payload.refresh == d.payload.feed && e.payload.duplicate == d.payload.duplicate
                            && e.extracted == e.payload.cves == InWindow(d, allow))
            && forall e | e in db.events && e.source != d.source :: e in after.events
  {
    if !d.payload.feed {
      QueuedIffUnknown(db, d, allow, scans);
    }
    IngestRequeues(db, d, allow, scans);
    var existing, cves := FileFound(db, d, scans).value, InWindow(d, allow);
    var extras, row := Extras(db, d, scans, existing), FileRow(d, StoredPayload(d, cves), cves, existing);
    RequeuedEvents(db, d, StoredPayload(d, cves), cves, existing, extras);
    RowsOfRequeue(db, row, extras);
    OtherSourcesStay(db, d, existing, extras, row);
  }

  lemma OtherSourcesStay(db: Db, d: Delivery, existing: Event, extras: seq<nat>, row: Event)
    requires InIdOrder(db.events) && FileRows(db, d.source, d.payload.filename, existing, extras)
    requires row.id == existing.id && row.source == d.source
    ensures forall e | e in db.events && e.source != d.source :: e in Without(Replaced(db.events, row), AsSet(extras))
  {
    RowsOfRequeue(db, row, extras);
    forall e | e in db.events && e.source != d.source ensures e.id != existing.id && e.id !in extras {
      if e.id == existing.id { UniqueById(db.events, e, existing); }
      if e.id in extras {
        var f :| f in db.events && f.id == e.id && Shows(f, d.source, d.payload.filename);
        UniqueById(db.events, e, f);
      }
    }
  }

  ghost predicate IdsFall(rows: seq<Event>) {
    forall i, j | 0 <= i < j < |rows| :: rows[i].id > rows[j].id
  }

  lemma {:induction false} RecentIsNewestFirst(events: seq<Event>, source: nat, limit: nat)
    requires InIdOrder(events)
    ensures IdsFall(Recent(events, source, limit))
  {
    if events != [] && limit != 0 {
      var front, last := events[..|events| - 1], events[|events| - 1];
      RecentIsNewestFirst(front, source, limit);
      RecentIsNewestFirst(front, source, limit - 1);
      RecentAreRows(front, source, limit - 1);
      forall e | e in front ensures e.id < last.id {
        var i :| 0 <= i < |front| && front[i] == e;
        assert events[i].id < events[|events| - 1].id;
      }
    }
  }

  lemma {:induction false} FirstShowingIsNewest(rows: seq<Event>, name: string)
    requires IdsFall(rows)
    ensures FirstShowing(rows, name).Some? ==>
              forall e | e in rows && e.payload.filename == name :: e.id <= FirstShowing(rows, name).value.id
  {
    if rows != [] && rows[0].payload.filename != name {
      FirstShowingIsNewest(rows[1..], name);
      assert forall e | e in rows :: e == rows[0] || e in rows[1..];
    }
  }

  /** The row that a file's delivery finds is the newest row of the source that shows the name. */
  lemma FileRowFoundIsTheNewest(db: Db, d: Delivery, scans: Scans)
    requires InIdOrder(db.events) && ScanCovers(db, d.source, scans) && d.payload.filename != ""
    ensures FileFound(db, d, scans).Some? <==> exists e :: e in db.events && Shows(e, d.source, d.payload.filename)
    ensures FileFound(db, d, scans).Some? ==>
              var found := FileFound(db, d, scans).value;
              && found in db.events && Shows(found, d.source, d.payload.filename)
              && forall e | e in db.events && Shows(e, d.source, d.payload.filename) :: e.id <= found.id
  {
    var rows := Recent(db.events, d.source, scans.files);
    RecentCovers(db.events, d.source, scans.files);
    RecentAreRows(db.events, d.source, scans.files);
    RecentIsNewestFirst(db.events, d.source, scans.files);
    FirstShowingFinds(rows, d.payload.filename);
    FirstShowingIsNewest(rows, d.payload.filename);
  }

  // ---------- histories ----------

  /** What touches the tables: deliveries, a run that deletes its event, a run that rewrites its event's
      status and ids, and any change of the stored CVEs. */
  datatype Op =
    | Deliver(d: Delivery, allow: Cve -> bool)
    | RunDrops(id: nat)
    | RunRewrites(id: nat, status: EventStatus, extracted: seq<Cve>)
    | StoredCves(vulns: set<Cve>)

  function Rewritten(events: seq<Event>, id: nat, status: EventStatus, extracted: seq<Cve>): seq<Event> {
    seq(|events|, i requires 0 <= i < |events| =>
      if events[i].id == id then events[i].(status := status, extracted := extracted) else events[i])
  }

  function Step(db: Db, op: Op, scans: Scans): Db {
    match op
    case Deliver(d, allow) => IngestSpec(db, d, allow, scans).0
    case RunDrops(id) => Deleted(db, {id})
    case RunRewrites(id, status, extracted) => db.(events := Rewritten(db.events, id, status, extracted))
    case StoredCves(vulns) => db.(vulns := vulns)
  }

  function History(db: Db, ops: seq<Op>, scans: Scans): Db {
    if ops == [] then db else Step(History(db, ops[..|ops| - 1], scans), ops[|ops| - 1], scans)
  }

  /** New rows get larger ids, and the scan covers the source of every delivery. */
  ghost predicate Covered(db: Db, ops: seq<Op>, scans: Scans) {
    forall i | 0 <= i < |ops| && ops[i].Deliver? ::
      Ordered(History(db, ops[..i], scans), ops[i].d) && ScanCovers(History(db, ops[..i], scans), ops[i].d.source, scans)
  }

  /** How many rows of the source the runs have deleted. */
  function Drops(db: Db, ops: seq<Op>, source: nat, scans: Scans): nat {
    if ops == [] then 0
    else
      var front, last := ops[..|ops| - 1], ops[|ops| - 1];
      Drops(db, front, source, scans) +
      if last.RunDrops? then Dropped(History(db, front, scans).events, last.id, source) else 0
  }

  function Dropped(events: seq<Event>, id: nat, source: nat): nat {
    if exists e | e in events :: e.id == id && e.source == source then 1 else 0
  }

  ghost predicate GoodTable(db: Db) {
    InIdOrder(db.events) && OneRowPerFile(db.events)
  }

  lemma DropKeepsTable(db: Db, id: nat)
    requires GoodTable(db)
    ensures GoodTable(Deleted(db, {id}))
  {
    WithoutKeepsOrder(db.events, {id});
    WithoutKeepsTheRest(db.events, {id});
  }

  lemma SourceOfId(events: seq<Event>, e: Event, source: nat)
    requires InIdOrder(events) && e in events
    ensures forall f | f in events && f.id == e.id :: f.source == e.source
    ensures Dropped(events, e.id, source) == if e.source == source then 1 else 0
  {
    forall f | f in events && f.id == e.id ensures f == e {
      UniqueById(events, e, f);
    }
  }

  lemma DropRows(events: seq<Event>, id: nat, source: nat)
    requires InIdOrder(events)
    ensures Rows(Without(events, {id}), source) == Rows(events, source) - Dropped(events, id, source)
  {
    if e: Event :| e in events && e.id == id {
      SourceOfId(events, e, source);
      RowsOfWithout(events, {id}, e.source, source);
      assert {id} * Ids(events) == {id};
    } else {
      RowsOfWithout(events, {id}, source, source);
      assert {id} * Ids(events) == {};
    }
  }

  lemma {:induction false} RewrittenRows(events: seq<Event>, id: nat, status: EventStatus, extracted: seq<Cve>,
                                         source: nat)
    ensures Rows(Rewritten(events, id, status, extracted), source) == Rows(events, source)
  {
    if events != [] {
      RewrittenRows(events[..|events| - 1], id, status, extracted, source);
      assert Rewritten(events, id, status, extracted)[..|events| - 1] == Rewritten(events[..|events| - 1], id, status, extracted);
    }
  }

  lemma RewrittenKeepsOrder(events: seq<Event>, id: nat, status: EventStatus, extracted: seq<Cve>)
    requires InIdOrder(events)
    ensures InIdOrder(Rewritten(events, id, status, extracted))
  {
    var after := Rewritten(events, id, status, extracted);
    assert forall i | 0 <= i < |events| :: after[i].id == events[i].id;
  }

  lemma RewrittenKeepsOneRow(events: seq<Event>, id: nat, status: EventStatus, extracted: seq<Cve>)
    requires OneRowPerFile(events)
    ensures OneRowPerFile(Rewritten(events, id, status, extracted))
  {
    var after := Rewritten(events, id, status, extracted);
    forall a, b | a in after && b in after && a.source == b.source && a.payload.filename == b.payload.filename != ""
      ensures a.id == b.id
    {
      var i :| 0 <= i < |after| && after[i] == a;
      var j :| 0 <= j < |after| && after[j] == b;
      assert events[i] in events && events[j] in events;
    }
  }

  lemma IngestKeepsOrder(db: Db, d: Delivery, allow: Cve -> bool, scans: Scans)
    requires Ordered(db, d)
    ensures InIdOrder(IngestSpec(db, d, allow, scans).0.events)
  {
    var after := IngestSpec(db, d, allow, scans).0;
    if Requeues(db, d, allow, scans) {
      IngestRequeues(db, d, allow, scans);
      var existing, cves := FileFound(db, d, scans).value, InWindow(d, allow);
      var row, extras := FileRow(d, StoredPayload(d, cves), cves, existing), Extras(db, d, scans, existing);
      RequeuedEvents(db, d, StoredPayload(d, cves), cves, existing, extras);
      ReplacedIds(db.events, row);
      WithoutKeepsOrder(Replaced(db.events, row), AsSet(extras));
    } else {
      IngestAppends(db, d, allow, scans);
      if after != db {
        var e :| Appended(db, d, scans, after, e);
      }
    }
  }

  /** One step of a history. */
  lemma StepKeepsTheBooks(db: Db, op: Op, scans: Scans, source: nat)
    requires GoodTable(db) && forall s :: Drift(db, s) >= 0
    requires op.Deliver? ==> Ordered(db, op.d) && ScanCovers(db, op.d.source, scans)
    ensures GoodTable(Step(db, op, scans))
    ensures Drift(Step(db, op, scans), source) ==
            Drift(db, source) + if op.RunDrops? then Dropped(db.events, op.id, source) else 0
  {
    match op
    case Deliver(d, allow) =>
      IngestKeepsOrder(db, d, allow, scans);
      IngestKeepsOneRow(db, d, allow, scans);
      IngestKeepsDrift(db, d, allow, scans, source);
    case RunDrops(id) =>
      DropKeepsTable(db, id);
      DropRows(db.events, id, source);
    case RunRewrites(id, status, extracted) =>
      RewrittenKeepsOrder(db.events, id, status, extracted);
      RewrittenKeepsOneRow(db.events, id, status, extracted);
      RewrittenRows(db.events, id, status, extracted, source);
    case StoredCves(vulns) =>
  }

  ghost predicate Books(db: Db, ops: seq<Op>, scans: Scans) {
    GoodTable(History(db, ops, scans)) &&
    forall s :: Drift(History(db, ops, scans), s) == Drops(db, ops, s, scans)
  }

  /** Main result: over every history of deliveries and runs from an empty table, each file of a source is shown by
      at most one row, and `event_count` is the number of the source's rows plus the rows its runs have deleted. */
  lemma {:induction false} HistoryKeepsTheBooks(ops: seq<Op>, scans: Scans)
    requires Covered(EMPTY, ops, scans)
    ensures Books(EMPTY, ops, scans)
  {
    if ops != [] {
      var front, last := ops[..|ops| - 1], ops[|ops| - 1];
      forall i | 0 <= i < |front| && front[i].Deliver? ensures ops[..i] == front[..i] && front[i] == ops[i] {
      }
      HistoryKeepsTheBooks(front, scans);
      StepKeepsTheBooks(History(EMPTY, front, scans), last, scans, 0);
      forall s {
        StepKeepsTheBooks(History(EMPTY, front, scans), last, scans, s);
      }
    }
  }

  const EMPTY := Db([], [], {}, map[], [])

  /** So the counter is exact iff no run has deleted a row of the source. */
  lemma CounterIsExactIffNothingWasDropped(ops: seq<Op>, scans: Scans, source: nat)
    requires Covered(EMPTY, ops, scans)
    ensures CountOf(History(EMPTY, ops, scans), source) == Rows(History(EMPTY, ops, scans).events, source) <==>
            Drops(EMPTY, ops, source, scans) == 0
  {
    HistoryKeepsTheBooks(ops, scans);
  }
}
