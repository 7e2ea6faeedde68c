/** Shared ingestion of app/services/ingestion.py: deduplication against known CVEs, one row per
    file, and the per-source event counter. */
module Ingestion {
  import opened Events
  import opened EventStore
  import opened Records
  import opened Wrappers

  /** How many rows the queries look at: 800 for a source's files, 2000 for pending events. */
  datatype Scans = Scans(files: nat, pending: nat)

  // ---------- which CVEs are known ----------

  predicate IsPending(e: Event) {
    e.status.Queued? || e.status.Processing?
  }

  /** The newest `limit` queued or processing rows, newest first. */
  function PendingRows(events: seq<Event>, limit: nat): seq<Event> {
    if events == [] || limit == 0 then []
    else
      var front, last := events[..|events| - 1], events[|events| - 1];
      if IsPending(last) then [last] + PendingRows(front, limit - 1) else PendingRows(front, limit)
  }

  function Mentioned(rows: seq<Event>): set<Cve> {
    set e, c | e in rows && c in e.extracted :: c
  }

  /** Stored, or carried by a scanned row that is queued or processing. */
  function Known(db: Db, candidates: seq<Cve>, scans: Scans): set<Cve> {
    AsSet(candidates) * (db.vulns + Mentioned(PendingRows(db.events, scans.pending)))
  }

  /** `_known_cve_ids` with its leftover set and its early exit. */
  method KnownCveIds(db: Store, candidates: seq<Cve>, scans: Scans) returns (known: set<Cve>)
    ensures known == Known(db.View(), candidates, scans)
  {
    var wanted := AsSet(candidates);
    if wanted == {} {
      return {};
    }
    known := db.vulns * wanted;
    var leftover := wanted - known;
    if leftover == {} {
      assert wanted == leftover + known;
      return;
    }
    var pending := PendingRows(db.events, scans.pending);
    var stored := known;
    var i := 0;
    while i < |pending|
      invariant i <= |pending|
      invariant known == stored + leftover * Mentioned(pending[..i])
    {
      known := AddMentioned(known, pending[i].extracted, leftover);
      assert Mentioned(pending[..i + 1]) == Mentioned(pending[..i]) + AsSet(pending[i].extracted) by {
        assert pending[..i + 1] == pending[..i] + [pending[i]];
      }
      i := i + 1;
      if leftover <= known {
        MentionedIsMonotone(pending, i);
        break;
      }
    }
    assert i == |pending| ==> pending[..i] == pending;
  }

  lemma MentionedIsMonotone(rows: seq<Event>, i: nat)
    requires i <= |rows|
    ensures Mentioned(rows[..i]) <= Mentioned(rows)
  {
    assert forall e | e in rows[..i] :: e in rows;
  }

  method AddMentioned(known: set<Cve>, items: seq<Cve>, leftover: set<Cve>) returns (r: set<Cve>)
    ensures r == known + leftover * AsSet(items)
  {
    r := known;
    for j := 0 to |items|
      invariant r == known + leftover * AsSet(items[..j])
    {
      assert items[..j + 1] == items[..j] + [items[j]];
      if items[j] in leftover {
        r := r + {items[j]};
      }
    }
    assert items[..|items|] == items;
  }

  // ---------- the rows of one file ----------

  /** `_file_event_for`: the first of the scanned rows that shows the name. */
  function FirstShowing(rows: seq<Event>, name: string): Option<Event> {
    if rows == [] then None
    else if rows[0].payload.filename == name then Some(rows[0])
    else FirstShowing(rows[1..], name)
  }

  method FileEventFor(db: Store, source: nat, name: string, scans: Scans) returns (found: Option<Event>)
    ensures found == if name == "" then None else FirstShowing(Recent(db.events, source, scans.files), name)
  {
    if name == "" {
      return None;
    }
    var rows := Recent(db.events, source, scans.files);
    for i := 0 to |rows|
      invariant FirstShowing(rows, name) == FirstShowing(rows[i..], name)
    {
      if rows[i].payload.filename == name {
        return Some(rows[i]);
      }
    }
    found := None;
  }

  /** `_other_file_event_ids`: the scanned rows that show the name, except the one to keep. */
  function OtherShowing(rows: seq<Event>, name: string, keep: nat): seq<nat> {
    if rows == [] then []
    else
      var front, last := rows[..|rows| - 1], rows[|rows| - 1];
      OtherShowing(front, name, keep) + if last.id != keep && last.payload.filename == name then [last.id] else []
  }

  method OtherFileEventIds(db: Store, source: nat, name: string, keep: nat, scans: Scans) returns (drop: seq<nat>)
    requires name != ""
    ensures drop == OtherShowing(Recent(db.events, source, scans.files), name, keep)
  {
    drop := [];
    var rows := Recent(db.events, source, scans.files);
    for i := 0 to |rows|
      invariant drop == OtherShowing(rows[..i], name, keep)
    {
      assert rows[..i + 1][..i] == rows[..i];
      if rows[i].id == keep {
        continue;
      }
      if rows[i].payload.filename == name {
        drop := drop + [rows[i].id];
      }
    }
    assert rows[..|rows|] == rows;
  }

  // ---------- ingest_payload ----------

  datatype Outcome = Rejected | Recorded(id: nat) | Enqueued(id: nat)

  /** One delivery: what arrived, for which source, under which new row id and clock. */
  datatype Delivery = Delivery(source: nat, payload: Payload, textCves: seq<Cve>, newId: nat, now: int)

  function Filter(cves: seq<Cve>, keep: Cve -> bool): seq<Cve> {
    if cves == [] then []
    else Filter(cves[..|cves| - 1], keep) + if keep(cves[|cves| - 1]) then [cves[|cves| - 1]] else []
  }

  /** The ids of a delivery inside the intel window. */
  function InWindow(d: Delivery, allow: Cve -> bool): seq<Cve> {
    Filter(Dedupe(d.payload.cves + d.textCves), allow)
  }

  function QueuedCves(db: Db, d: Delivery, allow: Cve -> bool, scans: Scans): seq<Cve> {
    var cves := InWindow(d, allow);
    if d.payload.feed then cves
    else
      var known := Known(db, cves, scans);
      Filter(cves, c => c !in known)
  }

  /** Set the counter of one source. */
  function Counted(db: Db, source: nat, count: int): Db {
    db.(counts := db.counts[source := count])
  }

  /** `_record_duplicate_event`. */
  function RecordDuplicate(db: Db, d: Delivery, payload: Payload, stored: seq<Cve>, hideName: bool): Db {
    var marked := payload.(duplicate := true, refresh := false, cves := stored);
    var shown := if hideName && payload.filename != "" then marked.(originFilename := payload.filename, filename := "") else marked;
    Counted(db, d.source, CountOf(db, d.source) + 1)
      .(events := db.events + [Event(d.newId, d.source, shown, d.textCves, Skipped, stored, d.now)])
  }

  function FileRow(d: Delivery, payload: Payload, stored: seq<Cve>, existing: Event): Event {
    existing.(payload := payload, textCves := d.textCves, extracted := stored, received := d.now, status := Queued)
  }

  /** The file's row is rewritten, its other rows go, and it is queued again. */
  function RequeueFile(db: Db, d: Delivery, payload: Payload, stored: seq<Cve>, existing: Event, extras: seq<nat>): Db {
    var row := FileRow(d, payload, stored, existing);
    var updated := db.(events := Replaced(db.events, row), enqueued := db.enqueued + [existing.id]);
    if extras == [] then updated
    else
      var count := CountOf(db, d.source);
      var lowered := (if count == 0 then 1 else count) - |extras|;
      Counted(Deleted(updated, AsSet(extras)), d.source, if lowered < 1 then 1 else lowered)
  }

  function AppendQueued(db: Db, d: Delivery, payload: Payload, stored: seq<Cve>): Db {
    Counted(db, d.source, CountOf(db, d.source) + 1)
      .(events := db.events + [Event(d.newId, d.source, payload, d.textCves, Queued, stored, d.now)],
        enqueued := db.enqueued + [d.newId])
  }

  function IngestSpec(db: Db, d: Delivery, allow: Cve -> bool, scans: Scans): (Db, Outcome) {
    var cves := InWindow(d, allow);
    if cves == [] then (db, Rejected)
    else
      var name := d.payload.filename;
      var queued := QueuedCves(db, d, allow, scans);
      var stored := if name != "" then cves else queued;
      var payload := d.payload.(refresh := d.payload.feed, cves := if stored != [] then stored else cves);
      var recent := Recent(db.events, d.source, scans.files);
      var existing := if name != "" then FirstShowing(recent, name) else None;
      if existing.Some? then
        if queued == [] then (RecordDuplicate(db, d, payload, cves, true), Recorded(d.newId))
        else
          (RequeueFile(db, d, payload, stored, existing.value, OtherShowing(recent, name, existing.value.id)),
           Enqueued(existing.value.id))
      else if queued == [] && !d.payload.feed then (RecordDuplicate(db, d, payload, cves, false), Recorded(d.newId))
      else (AppendQueued(db, d, payload, stored), Enqueued(d.newId))
  }

  method IngestPayload(db: Store, d: Delivery, allow: Cve -> bool, scans: Scans, chunkSize: nat) returns (out: Outcome)
    requires InIdOrder(db.events) && chunkSize > 0
    modifies db
    ensures (db.View(), out) == IngestSpec(old(db.View()), d, allow, scans)
  {
    var cves := InWindow(d, allow);
    if cves == [] {
      return Rejected;
    }
    var refresh := d.payload.feed;
    var name := d.payload.filename;
    var queued := cves;
    if !refresh {
      var known := KnownCveIds(db, cves, scans);
      queued := Filter(cves, c => c !in known);
    }
    var stored := if name != "" then cves else queued;
    var payload := d.payload.(refresh := refresh, cves := if stored != [] then stored else cves);
    var existing := FileEventFor(db, d.source, name, scans);
    if existing.Some? {
      var extras := OtherFileEventIds(db, d.source, name, existing.value.id, scans);
      if queued == [] {
        StoreDuplicate(db, d, payload, cves, true);
        return Recorded(d.newId);
      }
      RewriteFileRow(db, d, payload, stored, existing.value, extras, chunkSize);
      return Enqueued(existing.value.id);
    }
    if queued == [] && !refresh {
      StoreDuplicate(db, d, payload, cves, false);
      return Recorded(d.newId);
    }
    db.counts := db.counts[d.source := CountOf(db.View(), d.source) + 1];
    db.events := db.events + [Event(d.newId, d.source, payload, d.textCves, Queued, stored, d.now)];
    db.enqueued := db.enqueued + [d.newId];
    out := Enqueued(d.newId);
  }

  method StoreDuplicate(db: Store, d: Delivery, payload: Payload, stored: seq<Cve>, hideName: bool)
    modifies db
    ensures db.View() == RecordDuplicate(old(db.View()), d, payload, stored, hideName)
  {
    var shown := payload.(duplicate := true, refresh := false, cves := stored);
    if hideName && payload.filename != "" {
      shown := shown.(originFilename := payload.filename, filename := "");
    }
    db.counts := db.counts[d.source := CountOf(db.View(), d.source) + 1];
    db.events := db.events + [Event(d.newId, d.source, shown, d.textCves, Skipped, stored, d.now)];
  }

  method RewriteFileRow(db: Store, d: Delivery, payload: Payload, stored: seq<Cve>, existing: Event, extras: seq<nat>,
                        chunkSize: nat)
    requires InIdOrder(db.events) && chunkSize > 0
    modifies db
    ensures db.View() == RequeueFile(old(db.View()), d, payload, stored, existing, extras)
  {
    var row := FileRow(d, payload, stored, existing);
    db.events := Replaced(db.events, row);
    if extras != [] {
      var n := DeleteEventsById(db, extras, chunkSize);
      var count := CountOf(db.View(), d.source);
      var lowered := (if count == 0 then 1 else count) - |extras|;
      db.counts := db.counts[d.source := if lowered < 1 then 1 else lowered];
    }
    db.enqueued := db.enqueued + [existing.id];
  }
}
