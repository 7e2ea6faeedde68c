/** Histories from the empty table after which the unchanged-file skip of app/services/ingestion.py leaves out a file that
    would be enqueued: one for each of the two hypotheses of `SkipIsSoundAfterGuardedHistories`. */
module SkipCacheFailures {
  import opened Events
  import opened EventStore
  import opened Ingestion
  import opened IngestHistory
  import opened Records
  import opened SkipCache
  import opened Wrappers

  const NOTHING_READ := Poller(EMPTY, map[])

  // ---------- single polls on tables with at most one row ----------

  function FileEvent(w: Folder, name: string, stamp: string, id: nat): Event {
    Event(id, w.source, Payload(name, "", false, false, false, FileCves(w, name, stamp)), w.content(name, stamp), Queued,
          FileCves(w, name, stamp), 0)
  }

  lemma DeliveredIds(w: Folder, name: string, stamp: string, newId: nat)
    ensures InWindow(FileDelivery(w, name, stamp, newId, 0), w.allow) == FileCves(w, name, stamp)
    ensures forall c :: c in FileCves(w, name, stamp) <==> c in w.content(name, stamp) && w.allow(c)
  {
    var cves := w.content(name, stamp);
    FilterKeeps(Dedupe(cves + cves), w.allow);
  }

  /** The first poll of a file stores and stamps it. */
  lemma FirstPoll(w: Folder, name: string, stamp: string, c: Cve)
    requires name != "" && c in FileCves(w, name, stamp)
    ensures Poll(w, NOTHING_READ, name, stamp, 1, 0) ==
            Poller(Db([FileEvent(w, name, stamp, 1)], [], {}, map[w.source := 1], [1]), map[name := stamp])
    ensures PollReady(w, NOTHING_READ, name, 1) && NothingNewIsHidden(w, NOTHING_READ, name, stamp)
  {
    var d, cves := FileDelivery(w, name, stamp, 1, 0), FileCves(w, name, stamp);
    DeliveredIds(w, name, stamp, 1);
    assert !IsKnown(EMPTY, c, w.scans);
    FileIsEnqueuedIff(w, EMPTY, name, stamp, 1, 0);
    assert FileFound(EMPTY, d, w.scans).None?;
    assert IngestSpec(EMPTY, d, w.allow, w.scans) == (AppendQueued(EMPTY, d, StoredPayload(d, cves), cves), Enqueued(1));
  }

  /** A poll of a changed file with an unknown id rewrites the file's one row. */
  lemma ChangedPoll(w: Folder, st: Poller, e: Event, name: string, stamp: string, newId: nat, c: Cve)
    requires name != "" && st.db.events == [e] && Shows(e, w.source, name) && w.scans.files >= 1 && e.id < newId
    requires name in st.seen && st.seen[name] != stamp && c in FileCves(w, name, stamp) && !IsKnown(st.db, c, w.scans)
    ensures var after := Poll(w, st, name, stamp, newId, 0);
            && after.db.events == [FileEvent(w, name, stamp, e.id)] && after.db.vulns == st.db.vulns
            && after.seen == st.seen[name := stamp]
    ensures PollReady(w, st, name, newId) && NothingNewIsHidden(w, st, name, stamp)
  {
    var d, cves := FileDelivery(w, name, stamp, newId, 0), FileCves(w, name, stamp);
    DeliveredIds(w, name, stamp, newId);
    DeliveredIds(w, name, stamp, 0);
    OneRow(e, name, w.scans.files);
    UnknownIsQueued(w, st.db, d, c);
    UnknownIsQueued(w, st.db, FileDelivery(w, name, stamp, 0, 0), c);
    IngestRequeues(st.db, d, w.allow, w.scans);
    assert [e][..0] == [];
    assert Rows([e], w.source) == 1;
    assert Replaced([e], FileRow(d, StoredPayload(d, cves), cves, e)) == [FileEvent(w, name, stamp, e.id)];
  }

  lemma OneRow(e: Event, name: string, limit: nat)
    requires limit >= 1 && e.payload.filename == name
    ensures Recent([e], e.source, limit) == [e] && FirstShowing([e], name) == Some(e) && OtherShowing([e], name, e.id) == []
  {
    assert [e][..0] == [];
    assert Recent([e][..0], e.source, limit - 1) == [];
    assert OtherShowing([e][..0], name, e.id) == [];
  }

  lemma UnknownIsQueued(w: Folder, db: Db, d: Delivery, c: Cve)
    requires c in InWindow(d, w.allow) && !IsKnown(db, c, w.scans) && !d.payload.feed
    ensures QueuedCves(db, d, w.allow, w.scans) != []
  {
    var known := Known(db, InWindow(d, w.allow), w.scans);
    FilterKeeps(InWindow(d, w.allow), x => x !in known);
    assert c in QueuedCves(db, d, w.allow, w.scans);
  }

  lemma OneMoreOp(w: Folder, st: Poller, ops: seq<PollOp>, op: PollOp)
    ensures Polled(w, st, ops + [op]) == StepPoller(w, Polled(w, st, ops), op)
  {
    assert (ops + [op])[..|ops|] == ops;
  }

  lemma NothingPending(e: Event, limit: nat)
    requires !IsPending(e)
    ensures PendingRows([e], limit) == []
  {
    assert [e][..0] == [];
  }

  // ---------- a hidden play ----------

  /** A report whose first version names CVE a and whose second version names CVE b. */
  datatype Report = Report(name: string, a: Cve, b: Cve, v1: string, v2: string)

  ghost predicate IsChange(r: Report) {
    r.name != "" && r.a != r.b && r.v1 != r.v2 && r.v2 != ""
  }

  function ReportFolder(r: Report): Folder {
    Folder(0, (name, stamp) => if stamp == r.v1 then [r.a] else [r.b], c => true, Scans(2, 2), 2)
  }

  /** The first version is read and its CVE stored, and the other CVE is stored for another reason. */
  function FirstVersionRead(r: Report): seq<PollOp> {
    [PollFile(r.name, r.v1, 1, 0)] + [Elsewhere(RunRewrites(1, Done, [r.a]))] + [Elsewhere(StoredCves({r.a, r.b}))]
  }

  /** Then the second version is read, and later the stored CVEs change. */
  function HiddenHistory(r: Report, vulns: set<Cve>): seq<PollOp> {
    FirstVersionRead(r) + [PollFile(r.name, r.v2, 2, 0)] + [Elsewhere(StoredCves(vulns))]
  }

  lemma SingleId(c: Cve, allow: Cve -> bool)
    requires allow(c)
    ensures Filter(Dedupe([c] + [c]), allow) == [c]
  {
    assert ([c] + [c])[..1] == [c] && [c][..0] == [];
    assert Dedupe([c]) == [c];
    assert Filter([c], allow) == [c];
  }

  lemma NoElements(cves: seq<Cve>)
    ensures (forall c :: c !in cves) ==> cves == []
  {
    if cves != [] {
      assert cves[0] in cves;
    }
  }

  lemma AllKnownQueuesNothing(db: Db, d: Delivery, allow: Cve -> bool, scans: Scans)
    requires !d.payload.feed && forall c | c in InWindow(d, allow) :: IsKnown(db, c, scans)
    ensures QueuedCves(db, d, allow, scans) == []
  {
    var cves := InWindow(d, allow);
    var known := Known(db, cves, scans);
    FilterKeeps(cves, c => c !in known);
    NoElements(QueuedCves(db, d, allow, scans));
  }

  lemma ThreeOps(w: Folder, st: Poller, p: PollOp, q: PollOp, r: PollOp)
    ensures Polled(w, st, [p] + [q] + [r]) == StepPoller(w, StepPoller(w, StepPoller(w, st, p), q), r)
  {
    OneMoreOp(w, st, [], p);
    assert [] + [p] == [p];
    OneMoreOp(w, st, [p], q);
    OneMoreOp(w, st, [p] + [q], r);
  }

  lemma ReadStates(r: Report, e: Event)
    requires e == FileEvent(ReportFolder(r), r.name, r.v1, 1)
    ensures var w, s1 := ReportFolder(r), Poller(Db([e], [], {}, map[0 := 1], [1]), map[r.name := r.v1]);
            StepPoller(w, StepPoller(w, s1, Elsewhere(RunRewrites(1, Done, [r.a]))), Elsewhere(StoredCves({r.a, r.b}))) ==
            Poller(Db([e.(status := Done, extracted := [r.a])], [], {r.a, r.b}, map[0 := 1], [1]), map[r.name := r.v1])
  {
    assert Rewritten([e], 1, Done, [r.a]) == [e.(status := Done, extracted := [r.a])];
  }

  /** The state before the second version is read. */
  lemma BeforeTheChange(r: Report) returns (st: Poller)
    requires IsChange(r)
    ensures st == Polled(ReportFolder(r), NOTHING_READ, FirstVersionRead(r))
    ensures st.db.events == [FileEvent(ReportFolder(r), r.name, r.v1, 1).(status := Done)]
    ensures st.db.vulns == {r.a, r.b} && FileCves(ReportFolder(r), r.name, r.v1) == [r.a] && st.seen == map[r.name := r.v1]
  {
    var w := ReportFolder(r);
    SingleId(r.a, w.allow);
    FirstPoll(w, r.name, r.v1, r.a);
    var e := FileEvent(w, r.name, r.v1, 1);
    ReadStates(r, e);
    ThreeOps(w, NOTHING_READ, PollFile(r.name, r.v1, 1, 0), Elsewhere(RunRewrites(1, Done, [r.a])), Elsewhere(StoredCves({r.a, r.b})));
    st := Polled(w, NOTHING_READ, FirstVersionRead(r));
    assert StepPoller(w, NOTHING_READ, PollFile(r.name, r.v1, 1, 0)) == Poll(w, NOTHING_READ, r.name, r.v1, 1, 0);
  }

  /** The second version is hidden in that state. */
  lemma ChangeIsHidden(r: Report, st: Poller, e: Event)
    requires IsChange(r) && st.db.events == [e] && e == FileEvent(ReportFolder(r), r.name, r.v1, 1).(status := Done)
    requires st.db.vulns == {r.a, r.b} && FileCves(ReportFolder(r), r.name, r.v1) == [r.a] && st.seen == map[r.name := r.v1]
    ensures FileCves(ReportFolder(r), r.name, r.v2) == [r.b]
    ensures HidesThePlay(ReportFolder(r), st, r.name, r.v2)
  {
    var w := ReportFolder(r);
    SingleId(r.b, w.allow);
    OneRow(e, r.name, 2);
    AllKnownQueuesNothing(st.db, FileDelivery(w, r.name, r.v2, 0, 0), w.allow, w.scans);
    assert RecordedForFile(w, st.db, r.name) == [r.a];
  }

  /** Without the first hypothesis: a file changes while its new CVE is known and the play is hidden; then for some change
      of the stored CVEs the file is skipped although reading it would enqueue one. */
  lemma HiddenChangeIsSkippedLater(r: Report)
    requires IsChange(r)
    ensures exists vulns :: !SkipIsSound(ReportFolder(r), Polled(ReportFolder(r), NOTHING_READ, HiddenHistory(r, vulns)), r.name, r.v2)
  {
    var w := ReportFolder(r);
    var st := BeforeTheChange(r);
    var e := FileEvent(w, r.name, r.v1, 1).(status := Done);
    ChangeIsHidden(r, st, e);
    HiddenIsUnrecorded(r, st, e);
    var polled := Poll(w, st, r.name, r.v2, 2, 0);
    var vulns: set<Cve> :| !SkipIsSound(w, polled.(db := polled.db.(vulns := vulns)), r.name, r.v2);
    HiddenHistoryEnds(r, vulns, st, polled);
  }

  lemma HiddenIsUnrecorded(r: Report, st: Poller, e: Event)
    requires IsChange(r) && st.db.events == [e] && e == FileEvent(ReportFolder(r), r.name, r.v1, 1).(status := Done)
    requires FileCves(ReportFolder(r), r.name, r.v1) == [r.a] && FileCves(ReportFolder(r), r.name, r.v2) == [r.b]
    requires HidesThePlay(ReportFolder(r), st, r.name, r.v2)
    ensures var polled := Poll(ReportFolder(r), st, r.name, r.v2, 2, 0);
            exists vulns: set<Cve> :: !SkipIsSound(ReportFolder(r), polled.(db := polled.db.(vulns := vulns)), r.name, r.v2)
  {
    var w := ReportFolder(r);
    OneRow(e, r.name, 2);
    NothingPending(e, 2);
    assert RecordedForFile(w, st.db, r.name) == [r.a];
    assert r.b in FileCves(w, r.name, r.v2);
    assert [e][..0] == [] && Rows([e], 0) == 1;
    HiddenNewIdBreaksTheSkip(w, st, r.name, r.v2, 2, 0, r.b);
  }

  lemma HiddenHistoryEnds(r: Report, vulns: set<Cve>, st: Poller, polled: Poller)
    requires st == Polled(ReportFolder(r), NOTHING_READ, FirstVersionRead(r))
    requires polled == Poll(ReportFolder(r), st, r.name, r.v2, 2, 0)
    ensures Polled(ReportFolder(r), NOTHING_READ, HiddenHistory(r, vulns)) == polled.(db := polled.db.(vulns := vulns))
  {
    var w, ops := ReportFolder(r), FirstVersionRead(r);
    OneMoreOp(w, NOTHING_READ, ops, PollFile(r.name, r.v2, 2, 0));
    OneMoreOp(w, NOTHING_READ, ops + [PollFile(r.name, r.v2, 2, 0)], Elsewhere(StoredCves(vulns)));
  }

  // ---------- a row rewritten under its run ----------

  /** A report that names CVE a, and an id c outside the intel window, in its first version, and b as well in its second. */
  datatype GrowingReport = GrowingReport(name: string, a: Cve, b: Cve, c: Cve, v1: string, v2: string)

  ghost predicate IsGrowth(r: GrowingReport) {
    r.name != "" && r.a != r.b && r.a != r.c && r.b != r.c && r.v1 != r.v2 && r.v2 != ""
  }

  function GrowingFolder(r: GrowingReport): Folder {
    Folder(0, (name, stamp) => if stamp == r.v1 then [r.a, r.c] else [r.a, r.c, r.b], x => x != r.c, Scans(2, 2), 2)
  }

  function FirstIds(r: GrowingReport): seq<Cve> {
    FileCves(GrowingFolder(r), r.name, r.v1)
  }

  /** The first version is polled and its run loads the row. */
  function RunUnderWay(r: GrowingReport): seq<PollOp> {
    [PollFile(r.name, r.v1, 1, 0)] + [Elsewhere(RunRewrites(1, Processing, FirstIds(r)))]
  }

  /** The second version is polled meanwhile. */
  function PolledMeanwhile(r: GrowingReport): seq<PollOp> {
    RunUnderWay(r) + [PollFile(r.name, r.v2, 2, 0)]
  }

  /** The run commits what it extracted from the payload it had loaded, and both ids get stored. */
  function RacingHistory(r: GrowingReport): seq<PollOp> {
    PolledMeanwhile(r) + [Elsewhere(RunRewrites(1, Done, [r.a, r.c]))] + [Elsewhere(StoredCves({r.a, r.c}))]
  }

  lemma GrowingIds(r: GrowingReport)
    requires IsGrowth(r)
    ensures r.a in FirstIds(r) && r.b !in FirstIds(r)
    ensures r.b in FileCves(GrowingFolder(r), r.name, r.v2)
  {
    DeliveredIds(GrowingFolder(r), r.name, r.v1, 0);
    DeliveredIds(GrowingFolder(r), r.name, r.v2, 0);
  }

  lemma StateUnderWay(r: GrowingReport) returns (st: Poller)
    requires IsGrowth(r)
    ensures st == Polled(GrowingFolder(r), NOTHING_READ, RunUnderWay(r))
    ensures st.db.events == [FileEvent(GrowingFolder(r), r.name, r.v1, 1).(status := Processing)]
    ensures st.db.vulns == {} && st.seen == map[r.name := r.v1]
    ensures NothingNewIsHidden(GrowingFolder(r), NOTHING_READ, r.name, r.v1)
  {
    var w, e := GrowingFolder(r), FileEvent(GrowingFolder(r), r.name, r.v1, 1);
    GrowingIds(r);
    FirstPoll(w, r.name, r.v1, r.a);
    var p1, p2 := PollFile(r.name, r.v1, 1, 0), Elsewhere(RunRewrites(1, Processing, FirstIds(r)));
    OneMoreOp(w, NOTHING_READ, [], p1);
    assert [] + [p1] == [p1];
    OneMoreOp(w, NOTHING_READ, [p1], p2);
    assert Rewritten([e], 1, Processing, FirstIds(r)) == [e.(status := Processing)];
    st := Polled(w, NOTHING_READ, RunUnderWay(r));
  }

  lemma StatePolledMeanwhile(r: GrowingReport) returns (st: Poller)
    requires IsGrowth(r)
    ensures st == Polled(GrowingFolder(r), NOTHING_READ, PolledMeanwhile(r))
    ensures st.db.events == [FileEvent(GrowingFolder(r), r.name, r.v2, 1)] && st.seen == map[r.name := r.v2]
    ensures NothingNewIsHidden(GrowingFolder(r), NOTHING_READ, r.name, r.v1)
    ensures NothingNewIsHidden(GrowingFolder(r), Polled(GrowingFolder(r), NOTHING_READ, RunUnderWay(r)), r.name, r.v2)
  {
    var w := GrowingFolder(r);
    var before := StateUnderWay(r);
    var e := FileEvent(w, r.name, r.v1, 1).(status := Processing);
    GrowingIds(r);
    OnlyItsIdsAreKnown(r, before.db, e);
    ChangedPoll(w, before, e, r.name, r.v2, 2, r.b);
    OneMoreOp(w, NOTHING_READ, RunUnderWay(r), PollFile(r.name, r.v2, 2, 0));
    st := Polled(w, NOTHING_READ, PolledMeanwhile(r));
  }

  lemma OnlyItsIdsAreKnown(r: GrowingReport, db: Db, e: Event)
    requires IsGrowth(r) && db.events == [e] && db.vulns == {} && e.extracted == FirstIds(r)
    ensures !IsKnown(db, r.b, Scans(2, 2))
  {
    GrowingIds(r);
    assert [e][..0] == [];
    assert forall x | x in PendingRows([e], 2) :: x == e;
  }

  /** Without the second hypothesis, and with no hidden play at all: the commit of the run takes the row's new ids back, so
      the file is skipped although its new CVE would be enqueued. */
  lemma RewrittenUnderItsRunIsSkipped(r: GrowingReport)
    requires IsGrowth(r)
    ensures var w := GrowingFolder(r);
            && NothingNewIsHidden(w, NOTHING_READ, r.name, r.v1)
            && NothingNewIsHidden(w, Polled(w, NOTHING_READ, RunUnderWay(r)), r.name, r.v2)
            && !ExtractionCarries(w, Polled(w, NOTHING_READ, PolledMeanwhile(r)).db, 1, [r.a, r.c])
            && !SkipIsSound(w, Polled(w, NOTHING_READ, RacingHistory(r)), r.name, r.v2)
  {
    var w, row := GrowingFolder(r), FileEvent(GrowingFolder(r), r.name, r.v2, 1);
    var st := StatePolledMeanwhile(r);
    GrowingIds(r);
    assert row in st.db.events && IsFileRow(w, row) && r.b in row.payload.cves && r.b !in [r.a, r.c];
    CommitOverTheNewRow(r, st, row);
    StaleRecordSkips(r, Polled(w, NOTHING_READ, RacingHistory(r)), row.(status := Done, extracted := [r.a, r.c]));
  }

  lemma CommitOverTheNewRow(r: GrowingReport, st: Poller, row: Event)
    requires st == Polled(GrowingFolder(r), NOTHING_READ, PolledMeanwhile(r)) && st.db.events == [row] && row.id == 1
    ensures var end := Polled(GrowingFolder(r), NOTHING_READ, RacingHistory(r));
            && end.db.events == [row.(status := Done, extracted := [r.a, r.c])]
            && end.db.vulns == {r.a, r.c} && end.seen == st.seen
  {
    var w, ops := GrowingFolder(r), PolledMeanwhile(r);
    var p4, p5 := Elsewhere(RunRewrites(1, Done, [r.a, r.c])), Elsewhere(StoredCves({r.a, r.c}));
    OneMoreOp(w, NOTHING_READ, ops, p4);
    OneMoreOp(w, NOTHING_READ, ops + [p4], p5);
    assert Rewritten([row], 1, Done, [r.a, r.c]) == [row.(status := Done, extracted := [r.a, r.c])];
  }

  lemma StaleRecordSkips(r: GrowingReport, st: Poller, e: Event)
    requires IsGrowth(r) && st.db.events == [e] && st.db.vulns == {r.a, r.c} && st.seen == map[r.name := r.v2]
    requires Shows(e, 0, r.name) && !e.payload.duplicate && e.extracted == [r.a, r.c] && e.status.Done?
    ensures !SkipIsSound(GrowingFolder(r), st, r.name, r.v2)
  {
    var w := GrowingFolder(r);
    GrowingIds(r);
    OneRow(e, r.name, 2);
    NothingPending(e, 2);
    assert RecordedForFile(w, st.db, r.name) == [r.a, r.c];
    assert AsSet([r.a, r.c]) == {r.a, r.c};
    assert !IsKnown(st.db, r.b, w.scans);
    FileIsEnqueuedIff(w, st.db, r.name, r.v2, 0, 0);
  }
}
