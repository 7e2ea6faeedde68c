/** What histories of ingests, runs, stops and retries leave behind (app/pipeline/orchestrator.py and the worker loop of
    app/workers/queue.py). */
module RunHistory {
  import opened Enrich
  import opened Orchestrator
  import opened Records
  import opened RunEffects
  import opened Wrappers

  // ---------- gating over whole histories ----------

  /** Every opening of tickets follows directly on MATCHED and, before that, on an enrichment that does not pause. */
  ghost predicate GatedAt(log: seq<Entry>, i: nat)
    requires i < |log|
  {
    log[i].Acted? ==>
      && log[i].links >= 1 && i >= 2
      && log[i - 1] == Wrote(log[i].cve, MATCHED, false)
      && log[i - 2] == Wrote(log[i].cve, ENRICHED, false)
  }

  ghost predicate Gated(log: seq<Entry>) {
    forall i: nat | i < |log| :: GatedAt(log, i)
  }

  lemma GatedTogether(a: seq<Entry>, b: seq<Entry>)
    requires Gated(a) && Gated(b)
    ensures Gated(a + b)
  {
    forall i: nat | i < |a + b| ensures GatedAt(a + b, i) {
      if i < |a| {
        assert GatedAt(a, i);
      } else {
        assert GatedAt(b, i - |a|);
      }
    }
  }

  lemma PassLogIsGated(cve: Cve, log: seq<Entry>)
    requires PassLog(cve, log)
    ensures Gated(log)
  {
    forall i: nat | i < |log| ensures GatedAt(log, i) {
      assert log[i].Acted? ==> i == 2;
    }
  }

  lemma WritesAreGated(log: seq<Entry>)
    requires forall e | e in log :: e.Wrote?
    ensures Gated(log)
  {
    forall i: nat | i < |log| ensures GatedAt(log, i) {
      assert log[i] in log;
    }
  }

  lemma FailIsGated(db: Db, vuln: Option<Cve>)
    requires Gated(db.log)
    ensures Gated(Fail(db, vuln).log)
  {
    if vuln.Some? && vuln.value in db.vulns {
      var entry := [Wrote(vuln.value, FAILED, false)];
      WritesAreGated(entry);
      GatedTogether(db.log, entry);
    }
  }

  lemma ProcessIsGated(l: Loop, cve: Cve, row: Vulnerability, log: seq<Entry>, s: Settings, input: StageInput)
    requires Gated(l.db.log) && forall e | e in log :: e.Wrote?
    ensures Gated(Process(l, cve, row, log, s, input).db.log)
  {
    var end := EnrichMatchAct(cve, row, s, input);
    PassIsGated(cve, row, s, input);
    PassLogIsGated(cve, end.log);
    WritesAreGated(log);
    GatedTogether(log, end.log);
    GatedTogether(l.db.log, log + end.log);
    FailIsGated(Stored(l.db, cve, end.row, log + end.log), Some(cve));
  }

  lemma TurnIsGated(l: Loop, t: Turn, refresh: bool, s: Settings)
    requires Gated(l.db.log)
    ensures Gated(TakeTurn(l, t, refresh, s).db.log)
  {
    if t.accept.AcceptRaises? {
      FailIsGated(l.db, l.vuln);
    } else if t.cve in l.db.vulns {
      if refresh {
        ProcessIsGated(l, t.cve, WithIngested(l.db.vulns[t.cve], t.accept.fields), [], s, t.input);
      }
    } else {
      var row, created := NewRow(t.cve, t.accept.fields), [Wrote(t.cve, INGESTED, false)];
      if t.finalizeRaises {
        WritesAreGated(created);
        GatedTogether(l.db.log, created);
        FailIsGated(Stored(l.db, t.cve, row, created), Some(t.cve));
      } else {
        ProcessIsGated(l, t.cve, ApplyStatus(row, EXTRACTED, false), created + [Wrote(t.cve, EXTRACTED, false)], s, t.input);
      }
    }
  }

  lemma {:induction false} TurnsAreGated(l: Loop, turns: seq<Turn>, refresh: bool, s: Settings)
    requires Gated(l.db.log)
    ensures Gated(TakeTurns(l, turns, refresh, s).db.log)
  {
    if turns != [] {
      TurnsAreGated(l, turns[..|turns| - 1], refresh, s);
      TurnIsGated(TakeTurns(l, turns[..|turns| - 1], refresh, s), turns[|turns| - 1], refresh, s);
    }
  }

  lemma CutPassIsGated(db: Db, cve: Cve, row: Vulnerability, log: seq<Entry>, s: Settings, input: StageInput)
    requires Gated(db.log) && forall e | e in log :: e.Wrote?
    ensures Gated(CutPass(db, cve, row, log, s, input).log)
  {
    var end := EnrichMatchAct(cve, row, s, input);
    PassIsGated(cve, row, s, input);
    PassLogIsGated(cve, end.log);
    WritesAreGated(log);
    GatedTogether(log, end.log);
    GatedTogether(db.log, log + end.log);
  }

  lemma CutTurnIsGated(db: Db, t: Turn, refresh: bool, s: Settings)
    requires Gated(db.log)
    ensures Gated(CutTurn(db, t, refresh, s).log)
  {
    var row, created := NewRow(t.cve, FieldsOf(t)), [Wrote(t.cve, INGESTED, false)];
    if t.accept.Accepts? && t.cve in db.vulns && refresh {
      CutPassIsGated(db, t.cve, WithIngested(db.vulns[t.cve], t.accept.fields), [], s, t.input);
    } else if t.accept.Accepts? && t.cve !in db.vulns {
      if t.finalizeRaises {
        WritesAreGated(created);
        GatedTogether(db.log, created);
      } else {
        CutPassIsGated(db, t.cve, ApplyStatus(row, EXTRACTED, false), created + [Wrote(t.cve, EXTRACTED, false)], s, t.input);
      }
    }
  }

  function FieldsOf(t: Turn): Fields {
    if t.accept.Accepts? then t.accept.fields else Fields("", "", None, None)
  }

  lemma RunIsGated(db: Db, id: nat, run: nat, s: Settings, script: Script)
    requires Gated(db.log)
    ensures Gated(RunEvent(db, id, run, s, script).log)
  {
    if id in db.events && !script.ExtractRaises? {
      var started, refresh := Started(db, id, run), db.events[id].refresh;
      TurnsAreGated(Start(started), script.turns, refresh, s);
      TurnsKeepEventsAndRuns(Start(started), script.turns, refresh, s);
      if script.Interrupted? && script.last.Some? {
        CutTurnIsGated(TakeTurns(Start(started), script.turns, refresh, s).db, script.last.value, refresh, s);
      }
    }
  }

  lemma RetryIsGated(db: Db, cve: Cve, run: nat, s: Settings, input: StageInput)
    requires Gated(db.log)
    ensures Gated(Retry(db, cve, run, s, input).log)
  {
    if cve in db.vulns && IsDue(db.vulns[cve]) {
      PassIsGated(cve, db.vulns[cve], s, input);
      PassLogIsGated(cve, EnrichMatchAct(cve, db.vulns[cve], s, input).log);
      GatedTogether(db.log, EnrichMatchAct(cve, db.vulns[cve], s, input).log);
    }
  }

  // ---------- histories ----------

  /** What happens to the tables: an ingest queues an event, the worker runs one, or it retries a waiting CVE. */
  datatype Job =
    | QueueJob(id: nat, filename: string, refresh: bool)
    | RunJob(id: nat, run: nat, s: Settings, script: Script)
    | RetryJob(cve: Cve, run: nat, s: Settings, input: StageInput)

  function Do(db: Db, job: Job): Db {
    match job
    case QueueJob(id, filename, refresh) => db.(events := db.events[id := EventRow(Queued, filename, refresh)])
    case RunJob(id, run, s, script) => RunEvent(db, id, run, s, script)
    case RetryJob(cve, run, s, input) => Retry(db, cve, run, s, input)
  }

  function History(db: Db, jobs: seq<Job>): Db {
    if jobs == [] then db else Do(History(db, jobs[..|jobs| - 1]), jobs[|jobs| - 1])
  }

  /** Run rows get new ids. */
  ghost predicate NewRuns(db: Db, jobs: seq<Job>) {
    forall i | 0 <= i < |jobs| && !jobs[i].QueueJob? :: jobs[i].run !in History(db, jobs[..i]).runs
  }

  lemma NewRunsBefore(db: Db, jobs: seq<Job>)
    requires jobs != [] && NewRuns(db, jobs)
    ensures NewRuns(db, jobs[..|jobs| - 1])
    ensures var last := jobs[|jobs| - 1];
            !last.QueueJob? ==> last.run !in History(db, jobs[..|jobs| - 1]).runs
  {
    var front := jobs[..|jobs| - 1];
    forall i | 0 <= i < |front| && !front[i].QueueJob? ensures front[i].run !in History(db, front[..i]).runs {
      assert front[..i] == jobs[..i] && front[i] == jobs[i];
    }
  }

  // ---------- how one run leaves its event ----------

  predicate Settles(status: EventStatus) {
    status.Done? || status.Skipped? || status.Failed?
  }

  ghost predicate DropsEvent(before: Db, after: Db, id: nat, run: nat) {
    && after.events == before.events - {id} && run !in after.runs
    && forall r | r in after.runs :: after.runs[r].event != Some(id)
  }

  ghost predicate SettlesEvent(before: Db, after: Db, id: nat, run: nat) {
    && id in before.events && id in after.events && Settles(after.events[id].status)
    && after.events == before.events[id := before.events[id].(status := after.events[id].status)]
    && run in after.runs && after.runs[run].event == Some(id) && !after.runs[run].status.Running?
    && forall r | r in before.runs :: r in after.runs
  }

  /** Gone with all its runs, or settled with this run closed and the earlier ones left as they were. */
  ghost predicate Closes(before: Db, after: Db, id: nat, run: nat) {
    DropsEvent(before, after, id, run) || SettlesEvent(before, after, id, run)
  }

  /** The event stays processing and the run open. */
  ghost predicate Hangs(before: Db, after: Db, id: nat, run: nat) {
    && id in before.events && after.events == before.events[id := before.events[id].(status := Processing)]
    && after.runs == before.runs[run := RunRow(Some(id), Running)]
  }

  /** No other run row changes, and only the event's own rows may go. */
  ghost predicate KeepsOtherRuns(before: Db, after: Db, id: nat, run: nat) {
    && (forall r | r in after.runs && r != run :: r in before.runs && after.runs[r] == before.runs[r])
    && (forall r | r in before.runs && before.runs[r].event != Some(id) :: r in after.runs)
  }

  lemma CutTurnKeepsEventsAndRuns(db: Db, t: Turn, refresh: bool, s: Settings)
    ensures CutTurn(db, t, refresh, s).events == db.events && CutTurn(db, t, refresh, s).runs == db.runs
  {
  }

  lemma InterruptedRunHangs(db: Db, id: nat, run: nat, s: Settings, script: Script)
    requires id in db.events && script.Interrupted?
    ensures Hangs(db, RunEvent(db, id, run, s, script), id, run)
  {
    var started, refresh := Started(db, id, run), db.events[id].refresh;
    TurnsKeepEventsAndRuns(Start(started), script.turns, refresh, s);
    if script.last.Some? {
      CutTurnKeepsEventsAndRuns(TakeTurns(Start(started), script.turns, refresh, s).db, script.last.value, refresh, s);
    }
  }

  lemma CompleteRunCloses(db: Db, id: nat, run: nat, s: Settings, script: Script)
    requires id in db.events && run !in db.runs && !script.Interrupted?
    ensures Closes(db, RunEvent(db, id, run, s, script), id, run)
    ensures KeepsOtherRuns(db, RunEvent(db, id, run, s, script), id, run)
  {
    var started := Started(db, id, run);
    if script.Extracted? {
      TurnsKeepEventsAndRuns(Start(started), script.turns, db.events[id].refresh, s);
      if script.turns == [] {
        assert Dropped(started, id).events == db.events - {id};
      } else {
        FinishCloses(db, TakeTurns(Start(started), script.turns, db.events[id].refresh, s), id, run);
      }
    }
  }

  lemma FinishCloses(db: Db, l: Loop, id: nat, run: nat)
    requires id in db.events && run !in db.runs
    requires l.db.events == Started(db, id, run).events && l.db.runs == Started(db, id, run).runs
    ensures Closes(db, Finished(l, id, run), id, run)
    ensures KeepsOtherRuns(db, Finished(l, id, run), id, run)
  {
    if !l.kept && db.events[id].filename == "" {
      assert Finished(l, id, run).events == db.events - {id};
    }
  }

  /** Main result for one run: whatever the extraction and the loop meet, a run that finds its event closes the event and
      itself exactly when the worker is not stopped in it. Other events and runs are left alone. */
  lemma RunClosesIffNotInterrupted(db: Db, id: nat, run: nat, s: Settings, script: Script)
    requires id in db.events && run !in db.runs
    ensures Closes(db, RunEvent(db, id, run, s, script), id, run) <==> !script.Interrupted?
    ensures Hangs(db, RunEvent(db, id, run, s, script), id, run) <==> script.Interrupted?
    ensures KeepsOtherRuns(db, RunEvent(db, id, run, s, script), id, run)
  {
    if script.Interrupted? {
      InterruptedRunHangs(db, id, run, s, script);
    } else {
      CompleteRunCloses(db, id, run, s, script);
    }
  }

  /** A run that gets no CVEs to loop over stores and writes nothing: an extraction that raises fails the event and the
      run, and one that finds nothing drops the event with all its runs. */
  lemma RunWithoutCves(db: Db, id: nat, run: nat, s: Settings, script: Script)
    requires id in db.events && run !in db.runs && (script.ExtractRaises? || script == Extracted([]))
    ensures var after := RunEvent(db, id, run, s, script);
            && after.vulns == db.vulns && after.log == db.log && KeepsOtherRuns(db, after, id, run)
            && (script.ExtractRaises? ==>
                  && SettlesEvent(db, after, id, run) && after.events[id].status == EventStatus.Failed
                  && after.runs[run].status == RunFailed)
            && (script.Extracted? ==> DropsEvent(db, after, id, run))
  {
    RunClosesIffNotInterrupted(db, id, run, s, script);
    if script.Extracted? {
      assert RunEvent(db, id, run, s, script) == Dropped(Started(db, id, run), id);
    }
  }

  /** A later complete run closes the event, but the run that was interrupted stays open unless the event is dropped. */
  lemma InterruptedRunStaysOpen(db: Db, id: nat, old_: nat, run: nat, s: Settings, script: Script)
    requires id in db.events && old_ in db.runs && db.runs[old_] == RunRow(Some(id), Running)
    requires run !in db.runs && !script.Interrupted?
    ensures var after := RunEvent(db, id, run, s, script);
            && (id in after.events <==> old_ in after.runs)
            && (id in after.events ==> Settles(after.events[id].status) && after.runs[old_] == RunRow(Some(id), Running)
                                       && run in after.runs && !after.runs[run].status.Running?)
  {
    CompleteRunCloses(db, id, run, s, script);
  }

  // ---------- what is left processing and what is left open ----------

  /** The last thing that happened to the event is a run in which the worker was stopped. */
  predicate LastRunWasInterrupted(jobs: seq<Job>, id: nat) {
    if jobs == [] then false
    else
      var last := jobs[|jobs| - 1];
      if last.RunJob? && last.id == id then last.script.Interrupted?
      else if last.QueueJob? && last.id == id then false
      else LastRunWasInterrupted(jobs[..|jobs| - 1], id)
  }

  /** The runs that are still open. */
  function OpenRuns(db: Db): set<nat> {
    set r | r in db.runs && db.runs[r].status.Running?
  }

  /** A retry whose pass raised, or in which the worker was stopped. */
  predicate BreaksOff(db: Db, job: Job) {
    job.RetryJob? && job.cve in db.vulns && IsDue(db.vulns[job.cve]) &&
    EnrichMatchAct(job.cve, db.vulns[job.cve], job.s, job.input).raised
  }

  /** The runs of the retries that broke off, over a history. */
  function BrokenOff(db: Db, jobs: seq<Job>): set<nat> {
    if jobs == [] then {}
    else
      var front, last := jobs[..|jobs| - 1], jobs[|jobs| - 1];
      BrokenOff(db, front) + if BreaksOff(History(db, front), last) then {last.run} else {}
  }

  /** The interrupted runs whose event was not dropped afterwards, with their events. */
  function CutOff(db: Db, jobs: seq<Job>): map<nat, nat> {
    if jobs == [] then map[]
    else
      var front, last := jobs[..|jobs| - 1], jobs[|jobs| - 1];
      var before := CutOff(db, front);
      if !last.RunJob? || last.id !in History(db, front).events then before
      else if last.script.Interrupted? then before[last.run := last.id]
      else if last.id in Do(History(db, front), last).events then before
      else map r | r in before && before[r] != last.id :: before[r]
  }

  /** Which runs are open: those of retries and those of events apart. */
  ghost predicate OpenAre(db: Db, retries: set<nat>, cut: map<nat, nat>) {
    && OpenRuns(db) == retries + cut.Keys
    && (forall r | r in retries :: r in db.runs && db.runs[r].event == None)
    && (forall r | r in cut :: r in db.runs && db.runs[r].event == Some(cut[r]))
  }

  lemma InterruptedOpens(db: Db, after: Db, id: nat, run: nat, retries: set<nat>, cut: map<nat, nat>)
    requires OpenAre(db, retries, cut) && run !in db.runs && Hangs(db, after, id, run)
    ensures OpenAre(after, retries, cut[run := id])
  {
    assert OpenRuns(after) == OpenRuns(db) + {run};
  }

  lemma SettledKeepsOpen(db: Db, after: Db, id: nat, run: nat, retries: set<nat>, cut: map<nat, nat>)
    requires OpenAre(db, retries, cut) && run !in db.runs
    requires SettlesEvent(db, after, id, run) && KeepsOtherRuns(db, after, id, run)
    ensures OpenAre(after, retries, cut)
  {
    assert OpenRuns(after) == OpenRuns(db);
  }

  lemma DroppedClosesItsRuns(db: Db, after: Db, id: nat, run: nat, retries: set<nat>, cut: map<nat, nat>)
    requires OpenAre(db, retries, cut) && run !in db.runs
    requires DropsEvent(db, after, id, run) && KeepsOtherRuns(db, after, id, run)
    ensures OpenAre(after, retries, map r | r in cut && cut[r] != id :: cut[r])
  {
    var left := map r | r in cut && cut[r] != id :: cut[r];
    forall r ensures r in OpenRuns(after) <==> r in retries + left.Keys {
      if r in OpenRuns(after) {
        assert r in OpenRuns(db);
      }
    }
  }

  lemma RunRowAdded(db: Db, after: Db, run: nat, status: RunStatus, retries: set<nat>, cut: map<nat, nat>)
    requires OpenAre(db, retries, cut) && run !in db.runs && after.runs == db.runs[run := RunRow(None, status)]
    ensures OpenAre(after, retries + if status.Running? then {run} else {}, cut)
  {
    assert OpenRuns(after) == OpenRuns(db) + if status.Running? then {run} else {};
  }

  lemma RetryOpens(db: Db, job: Job, retries: set<nat>, cut: map<nat, nat>)
    requires OpenAre(db, retries, cut) && job.RetryJob? && job.run !in db.runs
    ensures OpenAre(Do(db, job), retries + if BreaksOff(db, job) then {job.run} else {}, cut)
  {
    var after := Do(db, job);
    if job.cve in db.vulns && IsDue(db.vulns[job.cve]) {
      RunRowAdded(db, after, job.run, after.runs[job.run].status, retries, cut);
    } else {
      assert retries + {} == retries;
    }
  }

  ghost predicate ProcessingAre(db: Db, jobs: seq<Job>) {
    forall id | id in db.events :: db.events[id].status.Processing? <==> LastRunWasInterrupted(jobs, id)
  }

  lemma JobKeepsProcessing(db: Db, front: seq<Job>, job: Job)
    requires ProcessingAre(db, front) && (job.RunJob? ==> job.run !in db.runs)
    ensures ProcessingAre(Do(db, job), front + [job])
  {
    assert (front + [job])[..|front|] == front;
    if job.RunJob? && job.id in db.events {
      RunClosesIffNotInterrupted(db, job.id, job.run, job.s, job.script);
    }
  }

  lemma JobKeepsOpen(db: Db, front: seq<Job>, job: Job, retries: set<nat>, cut: map<nat, nat>)
    requires var h := History(db, front);
             && retries == BrokenOff(db, front) && cut == CutOff(db, front)
             && OpenAre(h, retries, cut) && (!job.QueueJob? ==> job.run !in h.runs)
    ensures OpenAre(History(db, front + [job]), BrokenOff(db, front + [job]), CutOff(db, front + [job]))
  {
    var h, jobs := History(db, front), front + [job];
    assert jobs[..|front|] == front;
    var after := Do(h, job);
    assert History(db, jobs) == after;
    if job.RetryJob? {
      RetryOpens(h, job, retries, cut);
      assert CutOff(db, jobs) == cut;
    } else {
      assert BrokenOff(db, jobs) == retries + {} == retries;
      if job.RunJob? && job.id in h.events {
        RunClosesIffNotInterrupted(h, job.id, job.run, job.s, job.script);
        RunKeepsOpen(h, job, retries, cut);
      } else {
        assert after.runs == h.runs && OpenRuns(after) == OpenRuns(h) && CutOff(db, jobs) == cut;
      }
    }
  }

  /** The cut-off runs after one run of an event that was found. */
  function CutAfter(h: Db, job: Job, cut: map<nat, nat>): map<nat, nat>
    requires job.RunJob?
  {
    if job.script.Interrupted? then cut[job.run := job.id]
    else if job.id in Do(h, job).events then cut
    else map r | r in cut && cut[r] != job.id :: cut[r]
  }

  lemma RunKeepsOpen(h: Db, job: Job, retries: set<nat>, cut: map<nat, nat>)
    requires job.RunJob? && job.id in h.events && job.run !in h.runs && OpenAre(h, retries, cut)
    ensures OpenAre(Do(h, job), retries, CutAfter(h, job, cut))
  {
    var after := Do(h, job);
    RunClosesIffNotInterrupted(h, job.id, job.run, job.s, job.script);
    if job.script.Interrupted? {
      InterruptedOpens(h, after, job.id, job.run, retries, cut);
    } else if job.id in after.events {
      SettledKeepsOpen(h, after, job.id, job.run, retries, cut);
    } else {
      DroppedClosesItsRuns(h, after, job.id, job.run, retries, cut);
    }
  }

  const EMPTY := Db(map[], map[], map[], [])

  /** Main result: over every history of ingests, runs and retries, the events left in processing are exactly those whose
      last run was interrupted, and the runs left open are exactly those of the retries that broke off and of the
      interrupted runs whose event was not dropped afterwards. */
  lemma {:induction false} WhatHistoriesLeaveOpen(jobs: seq<Job>)
    requires NewRuns(EMPTY, jobs)
    ensures var h := History(EMPTY, jobs);
            && (forall id | id in h.events :: h.events[id].status.Processing? <==> LastRunWasInterrupted(jobs, id))
            && OpenRuns(h) == BrokenOff(EMPTY, jobs) + CutOff(EMPTY, jobs).Keys
    ensures OpenAre(History(EMPTY, jobs), BrokenOff(EMPTY, jobs), CutOff(EMPTY, jobs))
  {
    if jobs != [] {
      var front, last := jobs[..|jobs| - 1], jobs[|jobs| - 1];
      assert jobs == front + [last];
      NewRunsBefore(EMPTY, jobs);
      WhatHistoriesLeaveOpen(front);
      JobKeepsProcessing(History(EMPTY, front), front, last);
      JobKeepsOpen(EMPTY, front, last, BrokenOff(EMPTY, front), CutOff(EMPTY, front));
    }
  }

  /** Main result: over every history, tickets are only opened right after the CVE was matched to an asset, in a pass
      whose enrichment did not pause. */
  lemma {:induction false} HistoriesAreGated(db: Db, jobs: seq<Job>)
    requires Gated(db.log)
    ensures Gated(History(db, jobs).log)
  {
    if jobs != [] {
      var front, last := jobs[..|jobs| - 1], jobs[|jobs| - 1];
      HistoriesAreGated(db, front);
      var before := History(db, front);
      match last
      case QueueJob(id, filename, refresh) =>
      case RunJob(id, run, s, script) => RunIsGated(before, id, run, s, script);
      case RetryJob(cve, run, s, input) => RetryIsGated(before, cve, run, s, input);
    }
  }

  // ---------- what an interruption leaves undone ----------

  /** A run without a refresh that only meets stored CVEs changes none of them and gives its event up. */
  lemma RerunLeavesStoredCves(db: Db, id: nat, run: nat, s: Settings, turns: seq<Turn>)
    requires id in db.events && !db.events[id].refresh && turns != [] && DistinctCves(turns)
    requires forall t | t in turns :: t.accept.Accepts? && t.cve in db.vulns
    ensures var after := RunEvent(db, id, run, s, Extracted(turns));
            && after.vulns == db.vulns
            && (id in after.events ==> after.events[id].status == Skipped)
            && (id in after.events <==> db.events[id].filename != "")
  {
    var started := Started(db, id, run);
    EventOutcome(db, id, run, s, turns);
    TurnsKeepEventsAndRuns(Start(started), turns, false, s);
    LoopVariables(started, turns, false, s);
    var l := TakeTurns(Start(started), turns, false, s);
    assert db.vulns.Keys + AcceptedCves(turns) == db.vulns.Keys;
    forall c | c in db.vulns ensures l.db.vulns[c] == db.vulns[c] {
      StoredRowChangesIff(started, turns, s, c);
      assert forall i | 0 <= i < |turns| :: turns[i] in turns;
    }
    assert RunEvent(db, id, run, s, Extracted(turns)).vulns == l.db.vulns;
  }

  lemma CutTurnStores(db: Db, t: Turn, refresh: bool, s: Settings)
    requires t.accept.Accepts?
    ensures CutTurn(db, t, refresh, s).vulns.Keys == db.vulns.Keys + {t.cve}
  {
  }

  /** Main result: a new CVE in whose turn the worker is stopped is never finished by its event. The next run finds it
      stored, skips it, and gives the event up; the row stays as the stop left it. */
  lemma InterruptedCveIsAbandoned(db: Db, id: nat, run: nat, next: nat, s: Settings, done: seq<Turn>, t: Turn,
                                  again: seq<Turn>)
    requires id in db.events && !db.events[id].refresh && t.accept.Accepts?
    requires again != [] && DistinctCves(again)
    requires forall u | u in again :: u.accept.Accepts? && u.cve in AcceptedCves(done) + {t.cve}
    ensures var stopped := RunEvent(db, id, run, s, Interrupted(done, Some(t)));
            var after := RunEvent(stopped, id, next, s, Extracted(again));
            && t.cve in after.vulns && after.vulns == stopped.vulns
            && (id in after.events ==> after.events[id].status == Skipped)
  {
    var started := Started(db, id, run);
    LoopVariables(started, done, false, s);
    CutTurnStores(TakeTurns(Start(started), done, false, s).db, t, false, s);
    var stopped := RunEvent(db, id, run, s, Interrupted(done, Some(t)));
    InterruptedRunHangs(db, id, run, s, Interrupted(done, Some(t)));
    RerunLeavesStoredCves(stopped, id, next, s, again);
  }

  // ---------- runs that wait for nothing ----------

  lemma WaitingStays(l: Loop, t: Turn, refresh: bool, s: Settings)
    ensures l.waiting ==> TakeTurn(l, t, refresh, s).waiting
    ensures (l.waiting ==> l.kept) ==> TakeTurn(l, t, refresh, s).waiting ==> TakeTurn(l, t, refresh, s).kept
  {
  }

  lemma {:induction false} WaitingLoopIsKept(db: Db, turns: seq<Turn>, k: nat, refresh: bool, s: Settings)
    requires k <= |turns|
    ensures TakeTurns(Start(db), turns[..k], refresh, s).waiting ==> TakeTurns(Start(db), turns, refresh, s).waiting
    ensures TakeTurns(Start(db), turns, refresh, s).waiting ==> TakeTurns(Start(db), turns, refresh, s).kept
  {
    if turns != [] {
      var front, t := turns[..|turns| - 1], turns[|turns| - 1];
      if k < |turns| {
        assert front[..k] == turns[..k];
        WaitingLoopIsKept(db, front, k, refresh, s);
      } else {
        assert turns[..k] == turns;
        WaitingLoopIsKept(db, front, 0, refresh, s);
      }
      WaitingStays(TakeTurns(Start(db), front, refresh, s), t, refresh, s);
    } else {
      assert turns[..k] == turns;
    }
  }

  /** Main result: when the loop has met a waiting CVE and the accept after its turn raises, the run is left waiting for
      enrichment although the CVE is failed and no retry takes it up. */
  lemma PausedThenFailed(db: Db, id: nat, run: nat, s: Settings, turns: seq<Turn>, k: nat)
    requires id in db.events && DistinctCves(turns) && k + 1 < |turns|
    requires turns[k].accept.Accepts? && turns[k + 1].accept.AcceptRaises?
    requires TakeTurns(Start(Started(db, id, run)), turns[..k + 1], db.events[id].refresh, s).waiting
    ensures var after, c := RunEvent(db, id, run, s, Extracted(turns)), turns[k].cve;
            && run in after.runs && after.runs[run].status == WaitingEnrichment
            && c in after.vulns && after.vulns[c] == FailedRow(after.vulns[c])
            && forall next, settings, input :: Retry(after, c, next, settings, input) == after
  {
    var started, refresh := Started(db, id, run), db.events[id].refresh;
    RowAfterLaterTurns(started, turns, k, refresh, s);
    WaitingLoopIsKept(started, turns, k + 1, refresh, s);
    TurnsKeepEventsAndRuns(Start(started), turns, refresh, s);
    FailedIsNotDue(TakeTurns(Start(started), turns[..k + 1], refresh, s).db.vulns[turns[k].cve]);
  }

  /** The job is no run that accepts this CVE as a refresh. */
  ghost predicate NoRefreshOf(db: Db, job: Job, c: Cve) {
    job.RunJob? && job.id in db.events && db.events[job.id].refresh && !job.script.ExtractRaises? ==>
      && (forall t | t in job.script.turns :: t.cve != c)
      && (job.script.Interrupted? && job.script.last.Some? ==> job.script.last.value.cve != c)
  }

  lemma {:induction false} FailedRowInTurns(db: Db, turns: seq<Turn>, refresh: bool, s: Settings, c: Cve)
    requires c in db.vulns && db.vulns[c] == FailedRow(db.vulns[c])
    requires refresh ==> forall t | t in turns :: t.cve != c
    ensures var l := TakeTurns(Start(db), turns, refresh, s);
            c in l.db.vulns && l.db.vulns[c] == db.vulns[c]
  {
    if turns != [] {
      var front, t := turns[..|turns| - 1], turns[|turns| - 1];
      assert turns == front + [t] && t in turns;
      FailedRowInTurns(db, front, refresh, s, c);
      var l := TakeTurns(Start(db), front, refresh, s);
      if t.accept.Accepts? {
        AcceptedTurnTouchesItsRow(l, t, refresh, s);
        if !refresh { KnownTurn(l, t, s, c); }
      }
    }
  }

  lemma FailedRowInJob(db: Db, job: Job, c: Cve)
    requires c in db.vulns && db.vulns[c] == FailedRow(db.vulns[c]) && NoRefreshOf(db, job, c)
    ensures c in Do(db, job).vulns && Do(db, job).vulns[c] == db.vulns[c]
  {
    match job
    case QueueJob(id, filename, refresh) =>
    case RetryJob(cve, run, s, input) => FailedIsNotDue(db.vulns[c]);
    case RunJob(id, run, s, script) =>
      if id in db.events && !script.ExtractRaises? {
        var started, refresh := Started(db, id, run), db.events[id].refresh;
        FailedRowInTurns(started, script.turns, refresh, s, c);
        TurnsKeepEventsAndRuns(Start(started), script.turns, refresh, s);
      }
  }

  /** So a failed CVE stays as it is over every history of ingests, runs and retries in which no refresh accepts it. */
  lemma {:induction false} FailedRowStays(db: Db, jobs: seq<Job>, c: Cve)
    requires c in db.vulns && db.vulns[c] == FailedRow(db.vulns[c])
    requires forall i | 0 <= i < |jobs| :: NoRefreshOf(History(db, jobs[..i]), jobs[i], c)
    ensures c in History(db, jobs).vulns && History(db, jobs).vulns[c] == db.vulns[c]
  {
    if jobs != [] {
      var front, last := jobs[..|jobs| - 1], jobs[|jobs| - 1];
      forall i | 0 <= i < |front| ensures NoRefreshOf(History(db, front[..i]), front[i], c) {
        assert front[..i] == jobs[..i] && front[i] == jobs[i];
      }
      FailedRowStays(db, front, c);
      FailedRowInJob(History(db, front), last, c);
    }
  }
}
