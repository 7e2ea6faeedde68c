/** The unchanged-file skip of app/services/ingestion.py and the poll loop of app/api/settings/feeds.py
    that keeps its stamps: when a skipped file could not have enqueued anything, and when it could. */
module SkipCache {
  import opened Events
  import opened EventStore
  import opened Ingestion
  import opened IngestHistory
  import opened Records
  import opened Wrappers

  /** One polled folder. A stamp fixes a file's content, the intel window is fixed, and `recorded` is how
      many rows the search for the recorded ids looks at. */
  datatype Folder = Folder(
    source: nat,
    content: (string, string) -> seq<Cve>,
    allow: Cve -> bool,
    scans: Scans,
    recorded: nat)

  /** The tables and the stamps of the files already read. */
  datatype Poller = Poller(db: Db, seen: map<string, string>)

  function FileDelivery(w: Folder, name: string, stamp: string, newId: nat, now: int): Delivery {
    var cves := w.content(name, stamp);
    Delivery(w.source, Payload(name, "", false, false, false, cves), cves, newId, now)
  }

  /** The ids of the file inside the intel window. */
  function FileCves(w: Folder, name: string, stamp: string): seq<Cve> {
    InWindow(FileDelivery(w, name, stamp, 0, 0), w.allow)
  }

  predicate IsRecordOf(e: Event, name: string) {
    !e.payload.duplicate && e.payload.filename == name
  }

  function RecordedCves(e: Event): seq<Cve> {
    if e.extracted != [] then e.extracted else e.payload.cves
  }

  /** `cves_recorded_for_file` over the scanned rows: the ids of the newest row of the file that is no duplicate
      play. */
  function RecordedIn(rows: seq<Event>, name: string): seq<Cve> {
    if rows == [] then [] else if IsRecordOf(rows[0], name) then RecordedCves(rows[0]) else RecordedIn(rows[1..], name)
  }

  function RecordedForFile(w: Folder, db: Db, name: string): seq<Cve> {
    if name == "" then [] else RecordedIn(Recent(db.events, w.source, w.recorded), name)
  }

  /** `skip_unchanged_ingest_file`. */
  predicate Skips(w: Folder, st: Poller, name: string, stamp: string) {
    && name != "" && stamp != "" && name in st.seen && st.seen[name] == stamp
    && var cves := RecordedForFile(w, st.db, name);
       cves != [] && AsSet(cves) <= Known(st.db, cves, w.scans)
  }

  /** One file of a poll, with `_stamp_if_done`: a stamp is kept when a row was created or the text names no CVE. */
  function Poll(w: Folder, st: Poller, name: string, stamp: string, newId: nat, now: int): Poller {
    if Skips(w, st, name, stamp) then st
    else
      var (after, out) := IngestSpec(st.db, FileDelivery(w, name, stamp, newId, now), w.allow, w.scans);
      Poller(after, if !out.Rejected? || w.content(name, stamp) == [] then st.seen[name := stamp] else st.seen)
  }

  /** What the skip promises: ingesting the skipped file would have enqueued nothing. */
  ghost predicate SkipIsSound(w: Folder, st: Poller, name: string, stamp: string) {
    Skips(w, st, name, stamp) ==>
      forall newId, now :: !IngestSpec(st.db, FileDelivery(w, name, stamp, newId, now), w.allow, w.scans).1.Enqueued?
  }

  // ---------- which files are skipped ----------

  /** The newest scanned row that shows the file and is no duplicate play. */
  ghost predicate IsNewestRecord(rows: seq<Event>, name: string, i: nat) {
    && i < |rows| && !rows[i].payload.duplicate && rows[i].payload.filename == name
    && forall j | 0 <= j < i :: rows[j].payload.duplicate || rows[j].payload.filename != name
  }

  lemma {:induction false} RecordedOnColumns(rows: seq<Event>, name: string)
    ensures RecordedIn(rows, name) != [] ==>
              exists i: nat :: IsNewestRecord(rows, name, i) && RecordedIn(rows, name) == RecordedCves(rows[i])
    ensures forall i: nat | IsNewestRecord(rows, name, i) :: RecordedIn(rows, name) == RecordedCves(rows[i])
  {
    if rows != [] && !IsRecordOf(rows[0], name) {
      RecordedOnColumns(rows[1..], name);
      if RecordedIn(rows, name) != [] {
        var i: nat :| IsNewestRecord(rows[1..], name, i) && RecordedIn(rows[1..], name) == RecordedCves(rows[1..][i]);
        RecordShifts(rows, name, i + 1);
        assert rows[i + 1] == rows[1..][i];
      }
      forall i: nat | IsNewestRecord(rows, name, i) ensures RecordedIn(rows, name) == RecordedCves(rows[i]) {
        RecordShifts(rows, name, i);
        assert rows[i] == rows[1..][i - 1];
      }
    } else if rows != [] {
      assert IsNewestRecord(rows, name, 0);
    }
  }

  lemma RecordShifts(rows: seq<Event>, name: string, i: nat)
    requires rows != [] && !IsRecordOf(rows[0], name) && i > 0
    ensures IsNewestRecord(rows, name, i) <==> IsNewestRecord(rows[1..], name, i - 1)
  {
    if IsNewestRecord(rows[1..], name, i - 1) {
      assert forall j | 0 < j < i :: rows[j] == rows[1..][j - 1];
    }
  }

  /** What the newest record of a file lists: what a run extracted from it, or else what its payload names. */
  ghost predicate Lists(e: Event, c: Cve) {
    c in e.extracted || (e.extracted == [] && c in e.payload.cves)
  }

  ghost predicate ListsOnlyKnown(db: Db, e: Event, scans: Scans) {
    (exists c :: Lists(e, c)) && forall c | Lists(e, c) :: IsKnown(db, c, scans)
  }

  lemma RecordIsKnownIff(db: Db, e: Event, scans: Scans)
    ensures RecordedCves(e) != [] && AsSet(RecordedCves(e)) <= Known(db, RecordedCves(e), scans) <==> ListsOnlyKnown(db, e, scans)
  {
    assert forall c :: c in RecordedCves(e) <==> Lists(e, c);
    if RecordedCves(e) != [] {
      assert Lists(e, RecordedCves(e)[0]);
    }
    assert forall c :: c in RecordedCves(e) <==> c in AsSet(RecordedCves(e));
  }

  /** Exactly when a file is skipped: it carries the stamp it was last read with, and its newest record lists ids that are
      all stored or carried by a scanned pending row. */
  lemma SkipsIff(w: Folder, st: Poller, name: string, stamp: string)
    ensures var rows := Recent(st.db.events, w.source, w.recorded);
            Skips(w, st, name, stamp) <==>
            && name != "" && stamp != "" && name in st.seen && st.seen[name] == stamp
            && exists i: nat :: IsNewestRecord(rows, name, i) && ListsOnlyKnown(st.db, rows[i], w.scans)
  {
    var rows := Recent(st.db.events, w.source, w.recorded);
    RecordedOnColumns(rows, name);
    forall i: nat | IsNewestRecord(rows, name, i) {
      RecordIsKnownIff(st.db, rows[i], w.scans);
    }
    if Skips(w, st, name, stamp) {
      var i: nat :| IsNewestRecord(rows, name, i) && RecordedIn(rows, name) == RecordedCves(rows[i]);
      assert ListsOnlyKnown(st.db, rows[i], w.scans);
    }
  }

  /** A poll keeps the stamp of a file it reads iff the file names an id inside the window or none at all. */
  lemma PollStampsIff(w: Folder, st: Poller, name: string, stamp: string, newId: nat, now: int)
    ensures Poll(w, st, name, stamp, newId, now).seen ==
            if !Skips(w, st, name, stamp) &&
               (w.content(name, stamp) == [] || exists c :: c in w.content(name, stamp) && w.allow(c))
            then st.seen[name := stamp] else st.seen
  {
    RejectedIffNothingIsInTheWindow(st.db, FileDelivery(w, name, stamp, newId, now), w.allow, w.scans);
  }

  /** A stamped file whose only record is still pending is skipped. */
  lemma PendingFileIsSkipped(w: Folder, st: Poller, name: string, stamp: string, e: Event)
    requires name != "" && stamp != "" && name in st.seen && st.seen[name] == stamp
    requires e in st.db.events && e.source == w.source && IsRecordOf(e, name) && IsPending(e) && e.extracted != []
    requires forall f | f in st.db.events && f.source == w.source && IsRecordOf(f, name) :: f == e
    requires Rows(st.db.events, w.source) <= w.recorded && PendingCount(st.db.events) <= w.scans.pending
    ensures Skips(w, st, name, stamp)
  {
    RecentCovers(st.db.events, w.source, w.recorded);
    RecentAreRows(st.db.events, w.source, w.recorded);
    OnlyRecordIsFound(Recent(st.db.events, w.source, w.recorded), name, e);
    PendingRowsCover(st.db.events, w.scans.pending);
  }

  lemma {:induction false} OnlyRecordIsFound(rows: seq<Event>, name: string, e: Event)
    requires e in rows && IsRecordOf(e, name) && forall f | f in rows && IsRecordOf(f, name) :: f == e
    ensures RecordedIn(rows, name) == RecordedCves(e)
  {
    if rows[0] != e {
      OnlyRecordIsFound(rows[1..], name, e);
    }
  }

  /** Main result: a file that a poll has queued is not read again while its row is pending: a second poll with the same
      stamp changes nothing. */
  lemma SecondPollChangesNothing(w: Folder, st: Poller, name: string, stamp: string, newId: nat, now: int, next: nat,
                                 later: int)
    requires stamp != "" && PollReady(w, st, name, newId) && !Skips(w, st, name, stamp)
    requires IngestSpec(st.db, FileDelivery(w, name, stamp, newId, now), w.allow, w.scans).1.Enqueued?
    requires var events := Poll(w, st, name, stamp, newId, now).db.events;
             Rows(events, w.source) <= w.recorded && PendingCount(events) <= w.scans.pending
    ensures var once := Poll(w, st, name, stamp, newId, now); Poll(w, once, name, stamp, next, later) == once
  {
    var d, once := FileDelivery(w, name, stamp, newId, now), Poll(w, st, name, stamp, newId, now);
    QueuedFileHasOneRow(st.db, d, w.allow, w.scans);
    IngestKeepsOrder(st.db, d, w.allow, w.scans);
    var e :| e in once.db.events && Shows(e, w.source, name) && e.status.Queued? && !e.payload.duplicate &&
             e.extracted == e.payload.cves == InWindow(d, w.allow);
    forall f | f in once.db.events && f.source == w.source && IsRecordOf(f, name) ensures f == e {
      UniqueById(once.db.events, f, e);
    }
    PendingFileIsSkipped(w, once, name, stamp, e);
  }

  // ---------- what a state must hold for the skip to be sound ----------

  lemma {:induction false} RecordedComesFromARow(rows: seq<Event>, name: string)
    requires RecordedIn(rows, name) != []
    ensures exists e :: e in rows && IsRecordOf(e, name) && RecordedIn(rows, name) == RecordedCves(e)
  {
    if IsRecordOf(rows[0], name) {
      assert rows[0] in rows;
    } else {
      RecordedComesFromARow(rows[1..], name);
      var e :| e in rows[1..] && IsRecordOf(e, name) && RecordedIn(rows[1..], name) == RecordedCves(e);
      assert e in rows;
    }
  }

  /** A file is enqueued iff one of its ids is neither stored nor carried by a scanned pending row. */
  lemma FileIsEnqueuedIff(w: Folder, db: Db, name: string, stamp: string, newId: nat, now: int)
    requires name != ""
    ensures IngestSpec(db, FileDelivery(w, name, stamp, newId, now), w.allow, w.scans).1.Enqueued? <==>
            exists c :: c in FileCves(w, name, stamp) && !IsKnown(db, c, w.scans)
  {
    var d, cves := FileDelivery(w, name, stamp, newId, now), FileCves(w, name, stamp);
    assert InWindow(d, w.allow) == cves;
    var known := Known(db, cves, w.scans);
    var queued := QueuedCves(db, d, w.allow, w.scans);
    FilterKeeps(cves, c => c !in known);
    assert forall c :: c in queued <==> c in cves && !IsKnown(db, c, w.scans);
    if queued != [] {
      assert queued[0] in queued;
    }
  }

  /** The recorded ids, or scanned pending rows, carry every id of the file. */
  ghost predicate RecordCovers(w: Folder, db: Db, name: string, stamp: string) {
    forall c | c in FileCves(w, name, stamp) ::
      c in RecordedForFile(w, db, name) || c in Mentioned(PendingRows(db.events, w.scans.pending))
  }

  /** Exactly when the skip of a stamped file is sound whatever CVEs get stored or removed later:
      nothing is recorded, or what is recorded covers the file. */
  lemma SkipIsSoundIffTheRecordCovers(w: Folder, st: Poller, name: string, stamp: string)
    requires name != "" && stamp != "" && name in st.seen && st.seen[name] == stamp
    ensures (forall vulns: set<Cve> :: SkipIsSound(w, st.(db := st.db.(vulns := vulns)), name, stamp)) <==>
            RecordedForFile(w, st.db, name) == [] || RecordCovers(w, st.db, name, stamp)
  {
    if RecordedForFile(w, st.db, name) == [] || RecordCovers(w, st.db, name, stamp) {
      forall vulns: set<Cve> ensures SkipIsSound(w, st.(db := st.db.(vulns := vulns)), name, stamp) {
        CoveredSkipIsSound(w, st.(db := st.db.(vulns := vulns)), name, stamp);
      }
    } else {
      var worst := st.(db := st.db.(vulns := AsSet(RecordedForFile(w, st.db, name))));
      FileIsEnqueuedIff(w, worst.db, name, stamp, 0, 0);
      assert RecordedForFile(w, worst.db, name) == RecordedForFile(w, st.db, name);
      assert Skips(w, worst, name, stamp);
      assert !SkipIsSound(w, worst, name, stamp);
    }
  }

  lemma CoveredSkipIsSound(w: Folder, st: Poller, name: string, stamp: string)
    requires RecordedForFile(w, st.db, name) == [] || RecordCovers(w, st.db, name, stamp)
    ensures SkipIsSound(w, st, name, stamp)
  {
    if Skips(w, st, name, stamp) {
      assert forall c | c in RecordedForFile(w, st.db, name) :: c in AsSet(RecordedForFile(w, st.db, name));
      forall newId, now
        ensures !IngestSpec(st.db, FileDelivery(w, name, stamp, newId, now), w.allow, w.scans).1.Enqueued?
      {
        FileIsEnqueuedIff(w, st.db, name, stamp, newId, now);
      }
    }
  }

  // ---------- the invariant of a poll history ----------

  predicate IsFileRow(w: Folder, e: Event) {
    e.source == w.source && e.payload.filename != "" && !e.payload.duplicate
  }

  ghost predicate Carries(cves: seq<Cve>, wanted: seq<Cve>) {
    forall c | c in wanted :: c in cves
  }

  /** What a run extracted names at least the payload's ids, and the payload's ids are those of the stamped content. */
  ghost predicate RowCovers(w: Folder, e: Event, seen: map<string, string>) {
    && (e.extracted != [] ==> Carries(e.extracted, e.payload.cves))
    && (e.payload.filename in seen ==> Carries(e.payload.cves, FileCves(w, e.payload.filename, seen[e.payload.filename])))
  }

  /** Every row of a stamped file carries the ids of the content the stamp stands for. */
  ghost predicate Covers(w: Folder, st: Poller) {
    forall e | e in st.db.events && IsFileRow(w, e) :: RowCovers(w, e, st.seen)
  }

  lemma CoversMakesSkipsSound(w: Folder, st: Poller, name: string, stamp: string)
    requires Covers(w, st)
    ensures SkipIsSound(w, st, name, stamp)
  {
    if Skips(w, st, name, stamp) {
      RecordedComesFromARow(Recent(st.db.events, w.source, w.recorded), name);
      RecentAreRows(st.db.events, w.source, w.recorded);
      CoveredSkipIsSound(w, st, name, stamp);
    }
  }

  /** The branch that loses track: the file changed, all its ids are known, and the play is recorded under a hidden
      name. */
  predicate HidesThePlay(w: Folder, st: Poller, name: string, stamp: string) {
    var d := FileDelivery(w, name, stamp, 0, 0);
    && !Skips(w, st, name, stamp) && InWindow(d, w.allow) != []
    && FileFound(st.db, d, w.scans).Some? && QueuedCves(st.db, d, w.allow, w.scans) == []
  }

  /** The guard: a hidden play brings no id that the file's rows do not carry. */
  ghost predicate NothingNewIsHidden(w: Folder, st: Poller, name: string, stamp: string) {
    HidesThePlay(w, st, name, stamp) ==>
      forall e | e in st.db.events && IsFileRow(w, e) && e.payload.filename == name ::
        Carries(e.payload.cves, FileCves(w, name, stamp))
  }

  ghost predicate PollReady(w: Folder, st: Poller, name: string, newId: nat) {
    && name != "" && Rows(st.db.events, w.source) <= w.scans.files
    && InIdOrder(st.db.events) && forall i | 0 <= i < |st.db.events| :: st.db.events[i].id < newId
  }

  /** After the rewrite the rewritten row is the only row of the file, and the other rows are old ones. */
  lemma RequeuedPollRows(w: Folder, st: Poller, name: string, d: Delivery, newId: nat, row: Event)
    requires PollReady(w, st, name, newId) && d.source == w.source && d.payload.filename == name
    requires Requeues(st.db, d, w.allow, w.scans)
    requires row == FileRow(d, StoredPayload(d, InWindow(d, w.allow)), InWindow(d, w.allow), FileFound(st.db, d, w.scans).value)
    ensures forall e | e in IngestSpec(st.db, d, w.allow, w.scans).0.events && e.source == w.source ::
              e == row || (e in st.db.events && e.payload.filename != name)
  {
    var cves := InWindow(d, w.allow);
    IngestRequeues(st.db, d, w.allow, w.scans);
    var existing := FileFound(st.db, d, w.scans).value;
    var extras := Extras(st.db, d, w.scans, existing);
    RequeuedEvents(st.db, d, StoredPayload(d, cves), cves, existing, extras);
    RowsOfRequeue(st.db, row, extras);
    RecentCovers(st.db.events, w.source, w.scans.files);
    OtherShowingFinds(Recent(st.db.events, w.source, w.scans.files), name, existing.id);
  }

  lemma RequeuedPollCovers(w: Folder, st: Poller, name: string, stamp: string, newId: nat, now: int)
    requires Covers(w, st) && PollReady(w, st, name, newId) && !Skips(w, st, name, stamp)
    requires Requeues(st.db, FileDelivery(w, name, stamp, newId, now), w.allow, w.scans)
    ensures Covers(w, Poll(w, st, name, stamp, newId, now))
  {
    var d, cves := FileDelivery(w, name, stamp, newId, now), FileCves(w, name, stamp);
    assert InWindow(d, w.allow) == cves;
    var row := FileRow(d, StoredPayload(d, cves), cves, FileFound(st.db, d, w.scans).value);
    RequeuedPollRows(w, st, name, d, newId, row);
    IngestRequeues(st.db, d, w.allow, w.scans);
    var after := Poll(w, st, name, stamp, newId, now);
    forall e | e in after.db.events && IsFileRow(w, e) ensures RowCovers(w, e, after.seen) {
      if e != row {
        assert RowCovers(w, e, st.seen);
      }
    }
  }

  lemma AppendedPollCovers(w: Folder, st: Poller, name: string, stamp: string, newId: nat, now: int)
    requires Covers(w, st) && PollReady(w, st, name, newId) && !Skips(w, st, name, stamp)
    requires FileFound(st.db, FileDelivery(w, name, stamp, newId, now), w.scans).None?
    ensures Covers(w, Poll(w, st, name, stamp, newId, now))
  {
    var d, cves := FileDelivery(w, name, stamp, newId, now), FileCves(w, name, stamp);
    assert InWindow(d, w.allow) == cves;
    RecentCovers(st.db.events, w.source, w.scans.files);
    FirstShowingFinds(Recent(st.db.events, w.source, w.scans.files), name);
    assert forall e | e in st.db.events && e.source == w.source :: e.payload.filename != name;
  }

  lemma HiddenPollCovers(w: Folder, st: Poller, name: string, stamp: string, newId: nat, now: int)
    requires Covers(w, st) && HidesThePlay(w, st, name, stamp)
    ensures Covers(w, Poll(w, st, name, stamp, newId, now)) <==> NothingNewIsHidden(w, st, name, stamp)
  {
    var d, cves := FileDelivery(w, name, stamp, newId, now), FileCves(w, name, stamp);
    assert InWindow(d, w.allow) == cves;
    assert QueuedCves(st.db, d, w.allow, w.scans) == [];
    var after := Poll(w, st, name, stamp, newId, now);
    assert forall e | e in after.db.events && e !in st.db.events :: e.payload.duplicate;
    assert after.seen == st.seen[name := stamp];
    assert forall e | e in st.db.events :: e in after.db.events;
  }

  /** Main result: one poll keeps the invariant iff the branch that hides a play hides nothing new. */
  lemma PollKeepsCoverageIff(w: Folder, st: Poller, name: string, stamp: string, newId: nat, now: int)
    requires Covers(w, st) && PollReady(w, st, name, newId)
    ensures Covers(w, Poll(w, st, name, stamp, newId, now)) <==> NothingNewIsHidden(w, st, name, stamp)
  {
    var d := FileDelivery(w, name, stamp, newId, now);
    var d0 := FileDelivery(w, name, stamp, 0, 0);
    assert InWindow(d, w.allow) == InWindow(d0, w.allow) && FileFound(st.db, d, w.scans) == FileFound(st.db, d0, w.scans);
    assert QueuedCves(st.db, d, w.allow, w.scans) == QueuedCves(st.db, d0, w.allow, w.scans);
    if Skips(w, st, name, stamp) {
    } else if InWindow(d, w.allow) == [] {
      EmptyPollCovers(w, st, name, stamp, newId, now);
    } else if FileFound(st.db, d, w.scans).None? {
      AppendedPollCovers(w, st, name, stamp, newId, now);
    } else if Requeues(st.db, d, w.allow, w.scans) {
      RequeuedPollCovers(w, st, name, stamp, newId, now);
    } else {
      HiddenPollCovers(w, st, name, stamp, newId, now);
    }
  }

  lemma EmptyPollCovers(w: Folder, st: Poller, name: string, stamp: string, newId: nat, now: int)
    requires Covers(w, st) && !Skips(w, st, name, stamp) && FileCves(w, name, stamp) == []
    ensures Covers(w, Poll(w, st, name, stamp, newId, now))
  {
    var after := Poll(w, st, name, stamp, newId, now);
    assert after.db == st.db;
    forall e | e in st.db.events && IsFileRow(w, e) ensures RowCovers(w, e, after.seen) {
      assert RowCovers(w, e, st.seen);
    }
  }

  // ---------- histories ----------

  /** A poll of one file, or anything else that touches the tables. */
  datatype PollOp = PollFile(name: string, stamp: string, newId: nat, now: int) | Elsewhere(op: Op)

  function StepPoller(w: Folder, st: Poller, op: PollOp): Poller {
    match op
    case PollFile(name, stamp, newId, now) => Poll(w, st, name, stamp, newId, now)
    case Elsewhere(other) => st.(db := Step(st.db, other, w.scans))
  }

  function Polled(w: Folder, st: Poller, ops: seq<PollOp>): Poller {
    if ops == [] then st else StepPoller(w, Polled(w, st, ops[..|ops| - 1]), ops[|ops| - 1])
  }

  /** What a run writes as the row's ids names everything the row's payload names by then. */
  ghost predicate ExtractionCarries(w: Folder, db: Db, id: nat, extracted: seq<Cve>) {
    extracted == [] || forall e | e in db.events && IsFileRow(w, e) && e.id == id :: Carries(extracted, e.payload.cves)
  }

  /** Other deliveries bring no file of this folder, and an extraction carries the ids of the row it is written to. */
  ghost predicate Harmless(w: Folder, db: Db, op: Op) {
    match op
    case Deliver(d, allow) => InIdOrder(db.events) && (d.source != w.source || d.payload.filename == "")
    case RunRewrites(id, status, extracted) => ExtractionCarries(w, db, id, extracted)
    case RunDrops(id) => true
    case StoredCves(vulns) => true
  }

  ghost predicate Guarded(w: Folder, st: Poller, op: PollOp) {
    match op
    case PollFile(name, stamp, newId, now) => PollReady(w, st, name, newId) && NothingNewIsHidden(w, st, name, stamp)
    case Elsewhere(other) => Harmless(w, st.db, other)
  }

  ghost predicate GuardedHistory(w: Folder, st: Poller, ops: seq<PollOp>) {
    forall i | 0 <= i < |ops| :: Guarded(w, Polled(w, st, ops[..i]), ops[i])
  }

  lemma OtherDeliveryKeepsRows(w: Folder, db: Db, d: Delivery, allow: Cve -> bool)
    requires Harmless(w, db, Deliver(d, allow))
    ensures forall e | e in IngestSpec(db, d, allow, w.scans).0.events && IsFileRow(w, e) :: e in db.events
  {
    var after := IngestSpec(db, d, allow, w.scans).0;
    if Requeues(db, d, allow, w.scans) {
      IngestRequeues(db, d, allow, w.scans);
      var existing, cves := FileFound(db, d, w.scans).value, InWindow(d, allow);
      var extras, row := Extras(db, d, w.scans, existing), FileRow(d, StoredPayload(d, cves), cves, existing);
      RequeuedEvents(db, d, StoredPayload(d, cves), cves, existing, extras);
      RowsOfRequeue(db, row, extras);
    } else {
      IngestAppends(db, d, allow, w.scans);
      if after != db {
        var e :| Appended(db, d, w.scans, after, e);
      }
    }
  }

  /** A run's commit keeps the invariant iff what it extracted carries the ids of the row as it is then. The ids of the
      payload the run had loaded are not enough when a poll rewrote the row in the meantime. */
  lemma RewriteKeepsCoverageIff(w: Folder, st: Poller, id: nat, status: EventStatus, extracted: seq<Cve>)
    requires Covers(w, st)
    ensures Covers(w, st.(db := st.db.(events := Rewritten(st.db.events, id, status, extracted)))) <==>
            ExtractionCarries(w, st.db, id, extracted)
  {
    var before, after := st.db.events, Rewritten(st.db.events, id, status, extracted);
    var later := st.(db := st.db.(events := after));
    if ExtractionCarries(w, st.db, id, extracted) {
      forall e | e in after && IsFileRow(w, e) ensures RowCovers(w, e, st.seen) {
        var i :| 0 <= i < |after| && after[i] == e;
        assert before[i] in before && IsFileRow(w, before[i]) && RowCovers(w, before[i], st.seen);
      }
    }
    if Covers(w, later) && extracted != [] {
      forall e | e in before && IsFileRow(w, e) && e.id == id ensures Carries(extracted, e.payload.cves) {
        var i :| 0 <= i < |before| && before[i] == e;
        assert after[i] in after && IsFileRow(w, after[i]) && RowCovers(w, after[i], st.seen);
      }
    }
  }

  lemma ElsewhereKeepsCoverage(w: Folder, st: Poller, op: Op)
    requires Covers(w, st) && Harmless(w, st.db, op)
    ensures Covers(w, st.(db := Step(st.db, op, w.scans)))
  {
    match op
    case Deliver(d, allow) => OtherDeliveryKeepsRows(w, st.db, d, allow);
    case RunRewrites(id, status, extracted) => RewriteKeepsCoverageIff(w, st, id, status, extracted);
    case RunDrops(id) => WithoutKeepsTheRest(st.db.events, {id});
    case StoredCves(vulns) =>
  }

  lemma {:induction false} GuardedHistoryCovers(w: Folder, ops: seq<PollOp>)
    requires GuardedHistory(w, Poller(EMPTY, map[]), ops)
    ensures Covers(w, Polled(w, Poller(EMPTY, map[]), ops))
  {
    if ops != [] {
      var front, last := ops[..|ops| - 1], ops[|ops| - 1];
      forall i | 0 <= i < |front| ensures Guarded(w, Polled(w, Poller(EMPTY, map[]), front[..i]), front[i]) {
        assert ops[..i] == front[..i];
      }
      GuardedHistoryCovers(w, front);
      var st := Polled(w, Poller(EMPTY, map[]), front);
      assert Guarded(w, st, last);
      match last
      case PollFile(name, stamp, newId, now) => PollKeepsCoverageIff(w, st, name, stamp, newId, now);
      case Elsewhere(op) => ElsewhereKeepsCoverage(w, st, op);
    }
  }

  /** Main result: after every history of polls, runs, deletions and other deliveries in which no hidden play brings
      a new id and every extraction carries the ids of the row it is written to, a skip never leaves out a file that
      would have enqueued something. */
  lemma SkipIsSoundAfterGuardedHistories(w: Folder, ops: seq<PollOp>, name: string, stamp: string)
    requires GuardedHistory(w, Poller(EMPTY, map[]), ops)
    ensures SkipIsSound(w, Polled(w, Poller(EMPTY, map[]), ops), name, stamp)
  {
    GuardedHistoryCovers(w, ops);
    CoversMakesSkipsSound(w, Polled(w, Poller(EMPTY, map[]), ops), name, stamp);
  }

  // ---------- without the guard ----------

  lemma {:induction false} RecentBeyondTheTable(events: seq<Event>, source: nat, limit: nat)
    requires Rows(events, source) <= limit
    ensures Recent(events, source, limit + 1) == Recent(events, source, limit)
  {
    if events != [] {
      var front, last := events[..|events| - 1], events[|events| - 1];
      if limit == 0 {
        RecentBeyondTheTable(front, source, 0);
      } else if last.source == source {
        RecentBeyondTheTable(front, source, limit - 1);
      } else {
        RecentBeyondTheTable(front, source, limit);
      }
    }
  }

  /** A hidden play is no record: what is recorded for the file stays as it was. */
  lemma HiddenPlayIsNotRecorded(w: Folder, db: Db, e: Event, name: string)
    requires e.source == w.source && e.payload.duplicate && Rows(db.events, w.source) < w.recorded
    ensures RecordedForFile(w, db.(events := db.events + [e]), name) == RecordedForFile(w, db, name)
  {
    assert (db.events + [e])[..|db.events|] == db.events;
    RecentBeyondTheTable(db.events, w.source, w.recorded - 1);
    var rows := Recent(db.events, w.source, w.recorded);
    assert ([e] + rows)[1..] == rows;
  }

  lemma PendingWithout(events: seq<Event>, e: Event, limit: nat)
    requires !IsPending(e)
    ensures PendingRows(events + [e], limit) == PendingRows(events, limit)
  {
    assert (events + [e])[..|events|] == events;
  }

  lemma HiddenPoll(w: Folder, st: Poller, name: string, stamp: string, newId: nat, now: int)
    requires HidesThePlay(w, st, name, stamp)
    ensures var after := Poll(w, st, name, stamp, newId, now);
            && after.seen == st.seen[name := stamp]
            && exists e :: after.db.events == st.db.events + [e] && e.source == w.source && e.payload.duplicate && e.status.Skipped?
  {
    var d, d0 := FileDelivery(w, name, stamp, newId, now), FileDelivery(w, name, stamp, 0, 0);
    assert InWindow(d, w.allow) == InWindow(d0, w.allow);
    assert QueuedCves(st.db, d, w.allow, w.scans) == QueuedCves(st.db, d0, w.allow, w.scans) == [];
    var after := Poll(w, st, name, stamp, newId, now);
    assert after.db.events == st.db.events + [after.db.events[|st.db.events|]];
  }

  /** Once a hidden play brings an id that neither the record nor a pending row carries, some later set of stored
      CVEs makes the skip leave out a file that would be enqueued. */
  lemma HiddenNewIdBreaksTheSkip(w: Folder, st: Poller, name: string, stamp: string, newId: nat, now: int, c: Cve)
    requires name != "" && stamp != "" && HidesThePlay(w, st, name, stamp) && Rows(st.db.events, w.source) < w.recorded
    requires c in FileCves(w, name, stamp) && c !in Mentioned(PendingRows(st.db.events, w.scans.pending))
    requires RecordedForFile(w, st.db, name) != [] && c !in RecordedForFile(w, st.db, name)
    ensures var polled := Poll(w, st, name, stamp, newId, now);
            exists vulns: set<Cve> :: !SkipIsSound(w, polled.(db := polled.db.(vulns := vulns)), name, stamp)
  {
    HiddenPoll(w, st, name, stamp, newId, now);
    var polled := Poll(w, st, name, stamp, newId, now);
    var e: Event :| polled.db.events == st.db.events + [e] && e.source == w.source && e.payload.duplicate && e.status.Skipped?;
    HiddenPlayIsNotRecorded(w, st.db, e, name);
    PendingWithout(st.db.events, e, w.scans.pending);
    assert RecordedForFile(w, polled.db, name) == RecordedForFile(w, st.db, name);
    SkipIsSoundIffTheRecordCovers(w, polled, name, stamp);
  }
}
