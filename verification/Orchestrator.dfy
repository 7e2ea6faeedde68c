/** One pipeline run over an ingest event (app/pipeline/orchestrator.py), the steps reduced to their outcomes,
    and the retries of waiting CVEs (app/workers/queue.py). */
module Orchestrator {
  import opened Enrich
  import opened Records
  import opened Wrappers

  datatype RunStatus = Running | WaitingEnrichment | Completed | RunFailed

  datatype RunRow = RunRow(event: Option<nat>, status: RunStatus)

  /** `refresh`: the payload has a feed_url or is marked as a refresh. */
  datatype EventRow = EventRow(status: EventStatus, filename: string, refresh: bool)

  /** What gets written down: a status of a CVE, with whether it pauses there, or that tickets were opened for it
      while it had so many links. */
  datatype Entry = Wrote(cve: Cve, status: PipelineStatus, paused: bool) | Acted(cve: Cve, links: nat)

  datatype Db = Db(events: map<nat, EventRow>, runs: map<nat, RunRow>, vulns: map<Cve, Vulnerability>, log: seq<Entry>)

  // ---------- enrich, match, act ----------

  /** `match_assets` raises, or writes MATCHED and returns the links; without links the model may infer an owner. */
  datatype MatchAnswer = MatchRaises | Matched(links: nat, names: Enrich.Names, inferred: bool)

  datatype StageInput = StageInput(answers: Answers, matching: MatchAnswer, actRaises: bool)

  /** `row` is the row as the session sees it, `committed` the row as last committed. */
  datatype PassEnd = PassEnd(row: Vulnerability, committed: Vulnerability, log: seq<Entry>, raised: bool)

  function WithMatch(v: Vulnerability, m: MatchAnswer): Vulnerability
    requires m.Matched?
  {
    var named := ApplyStatus(WithNames(v, m.names), MATCHED, false);
    if m.links == 0 && m.inferred then named.(aiMatching := true, enrichment := named.enrichment["inferred_owner" := Object])
    else named
  }

  function AfterMatch(cve: Cve, v: Vulnerability, input: StageInput): PassEnd {
    if input.matching.MatchRaises? then PassEnd(v, v, [Wrote(cve, ENRICHED, false)], true)
    else
      var matched := WithMatch(v, input.matching);
      var log := [Wrote(cve, ENRICHED, false), Wrote(cve, MATCHED, false)];
      if input.matching.links == 0 then PassEnd(matched, matched, log, false)
      else if input.actRaises then PassEnd(matched, matched, log + [Acted(cve, input.matching.links)], true)
      else
        var acted := ApplyStatus(matched, ACTIONED, false);
        PassEnd(acted, acted, log + [Acted(cve, input.matching.links), Wrote(cve, ACTIONED, false)], false)
  }

  /** `_enrich_match_act`. */
  function EnrichMatchAct(cve: Cve, v: Vulnerability, s: Settings, input: StageInput): PassEnd {
    var exit := EnrichPass(v, s, input.answers);
    if exit.Raised? then PassEnd(exit.row, v, [], true)
    else if IsEnrichmentWaiting(exit.row) then PassEnd(exit.row, exit.row, [Wrote(cve, ENRICHED, true)], false)
    else AfterMatch(cve, exit.row, input)
  }

  // ---------- one turn of the loop ----------

  datatype Accept = AcceptRaises | Accepts(fields: Fields)

  /** What one extracted CVE meets. `finalizeRaises` matters for a new row only. */
  datatype Turn = Turn(cve: Cve, accept: Accept, finalizeRaises: bool, input: StageInput)

  /** The loop's variables: the tables, `vuln`, `kept_any` and `waiting_any`. */
  datatype Loop = Loop(db: Db, vuln: Option<Cve>, kept: bool, waiting: bool)

  function Start(db: Db): Loop {
    Loop(db, None, false, false)
  }

  function NewRow(cve: Cve, f: Fields): Vulnerability {
    Vulnerability(cve, f.vendor, f.product, f.cvss, f.epss, INGESTED, "ingested", map[], false, false, false)
  }

  /** `fail_vulnerability` on the CVE the variable `vuln` holds, if any. */
  function Fail(db: Db, vuln: Option<Cve>): Db {
    if vuln.None? || vuln.value !in db.vulns then db
    else
      db.(vulns := db.vulns[vuln.value := ApplyStatus(db.vulns[vuln.value], FAILED, false)],
          log := db.log + [Wrote(vuln.value, FAILED, false)])
  }

  function Stored(db: Db, cve: Cve, row: Vulnerability, log: seq<Entry>): Db {
    db.(vulns := db.vulns[cve := row], log := db.log + log)
  }

  /** The stages of an accepted CVE, with the failure handler around them. */
  function Process(l: Loop, cve: Cve, row: Vulnerability, log: seq<Entry>, s: Settings, input: StageInput): Loop {
    var end := EnrichMatchAct(cve, row, s, input);
    var db := Stored(l.db, cve, end.row, log + end.log);
    if end.raised then Loop(Fail(db, Some(cve)), Some(cve), true, l.waiting)
    else Loop(db, Some(cve), true, l.waiting || IsEnrichmentWaiting(end.row))
  }

  function TakeTurn(l: Loop, t: Turn, refresh: bool, s: Settings): Loop {
    if t.accept.AcceptRaises? then l.(db := Fail(l.db, l.vuln))
    else if t.cve in l.db.vulns then
      if !refresh then l.(vuln := Some(t.cve))
      else Process(l, t.cve, WithIngested(l.db.vulns[t.cve], t.accept.fields), [], s, t.input)
    else
      var row := NewRow(t.cve, t.accept.fields);
      var created := [Wrote(t.cve, INGESTED, false)];
      if t.finalizeRaises then
        Loop(Fail(Stored(l.db, t.cve, row, created), Some(t.cve)), Some(t.cve), true, l.waiting)
      else
        Process(l, t.cve, ApplyStatus(row, EXTRACTED, false), created + [Wrote(t.cve, EXTRACTED, false)], s, t.input)
  }

  function TakeTurns(l: Loop, turns: seq<Turn>, refresh: bool, s: Settings): Loop {
    if turns == [] then l
    else TakeTurn(TakeTurns(l, turns[..|turns| - 1], refresh, s), turns[|turns| - 1], refresh, s)
  }

  // ---------- the run ----------

  /** How a run goes on after the event is marked processing: the extraction raises, the loop takes all its turns, or the
      worker is stopped. A stopped run has taken some turns and may be in the middle of one more, at the point where
      that turn's input says that a call does not come back. */
  datatype Script =
    | ExtractRaises
    | Extracted(turns: seq<Turn>)
    | Interrupted(turns: seq<Turn>, last: Option<Turn>)

  /** What is committed of the stages of an accepted CVE when the session is dropped. */
  function CutPass(db: Db, cve: Cve, row: Vulnerability, log: seq<Entry>, s: Settings, input: StageInput): Db {
    var end := EnrichMatchAct(cve, row, s, input);
    Stored(db, cve, end.committed, log + end.log)
  }

  /** What is committed of a turn that does not come to its end; no handler runs. */
  function CutTurn(db: Db, t: Turn, refresh: bool, s: Settings): Db {
    if t.accept.AcceptRaises? || (t.cve in db.vulns && !refresh) then db
    else if t.cve in db.vulns then CutPass(db, t.cve, WithIngested(db.vulns[t.cve], t.accept.fields), [], s, t.input)
    else
      var row := NewRow(t.cve, t.accept.fields);
      var created := [Wrote(t.cve, INGESTED, false)];
      if t.finalizeRaises then Stored(db, t.cve, row, created)
      else
        CutPass(db, t.cve, ApplyStatus(row, EXTRACTED, false), created + [Wrote(t.cve, EXTRACTED, false)], s, t.input)
  }

  /** The runs of the event are deleted, then the event. */
  function Dropped(db: Db, id: nat): Db {
    db.(events := db.events - {id}, runs := map r | r in db.runs && db.runs[r].event != Some(id) :: db.runs[r])
  }

  function Settled(db: Db, id: nat, run: nat, event: EventStatus, status: RunStatus): Db
    requires id in db.events
  {
    db.(events := db.events[id := db.events[id].(status := event)], runs := db.runs[run := RunRow(Some(id), status)])
  }

  function Started(db: Db, id: nat, run: nat): Db
    requires id in db.events
  {
    Settled(db, id, run, Processing, Running)
  }

  function Finished(l: Loop, id: nat, run: nat): Db
    requires id in l.db.events
  {
    if !l.kept then
      if l.db.events[id].filename != "" then Settled(l.db, id, run, Skipped, Completed) else Dropped(l.db, id)
    else Settled(l.db, id, run, Done, if l.waiting then WaitingEnrichment else Completed)
  }

  lemma TurnKeepsEventsAndRuns(l: Loop, t: Turn, refresh: bool, s: Settings)
    ensures TakeTurn(l, t, refresh, s).db.events == l.db.events
    ensures TakeTurn(l, t, refresh, s).db.runs == l.db.runs
  {
    if t.accept.Accepts? && t.cve !in l.db.vulns && !t.finalizeRaises {
      var row := ApplyStatus(NewRow(t.cve, t.accept.fields), EXTRACTED, false);
      ProcessKeepsEventsAndRuns(l, t.cve, row, [Wrote(t.cve, INGESTED, false)] + [Wrote(t.cve, EXTRACTED, false)], s, t.input);
    } else if t.accept.Accepts? && t.cve in l.db.vulns && refresh {
      ProcessKeepsEventsAndRuns(l, t.cve, WithIngested(l.db.vulns[t.cve], t.accept.fields), [], s, t.input);
    }
  }

  lemma ProcessKeepsEventsAndRuns(l: Loop, cve: Cve, row: Vulnerability, log: seq<Entry>, s: Settings,
                                  input: StageInput)
    ensures Process(l, cve, row, log, s, input).db.events == l.db.events
    ensures Process(l, cve, row, log, s, input).db.runs == l.db.runs
  {
  }

  lemma {:induction false} TurnsKeepEventsAndRuns(l: Loop, turns: seq<Turn>, refresh: bool, s: Settings)
    ensures TakeTurns(l, turns, refresh, s).db.events == l.db.events
    ensures TakeTurns(l, turns, refresh, s).db.runs == l.db.runs
  {
    if turns != [] {
      TurnsKeepEventsAndRuns(l, turns[..|turns| - 1], refresh, s);
      TurnKeepsEventsAndRuns(TakeTurns(l, turns[..|turns| - 1], refresh, s), turns[|turns| - 1], refresh, s);
    }
  }

  /** `run_event`. */
  function RunEvent(db: Db, id: nat, run: nat, s: Settings, script: Script): Db {
    if id !in db.events then db
    else
      var started := Started(db, id, run);
      match script
      case ExtractRaises => Settled(started, id, run, EventStatus.Failed, RunFailed)
      case Extracted(turns) =>
        if turns == [] then Dropped(started, id)
        else
          TurnsKeepEventsAndRuns(Start(started), turns, db.events[id].refresh, s);
          Finished(TakeTurns(Start(started), turns, db.events[id].refresh, s), id, run)
      case Interrupted(turns, last) =>
        var l := TakeTurns(Start(started), turns, db.events[id].refresh, s);
        if last.None? then l.db else CutTurn(l.db, last.value, db.events[id].refresh, s)
  }

  /** `due_waiting_enrichment`: the status column says waiting, or the flag does for a row that is extracted or enriched. */
  predicate IsDue(v: Vulnerability) {
    v.pipelineStatus == WAITING_ENRICHMENT || ((v.status == EXTRACTED || v.status == ENRICHED) && IsEnrichmentWaiting(v))
  }

  /** `_retry_waiting_enrichment` for one CVE whose time has come: when the pass raises or the worker is stopped in it,
      the session is dropped and the run stays open. */
  function Retry(db: Db, cve: Cve, run: nat, s: Settings, input: StageInput): Db {
    if cve !in db.vulns || !IsDue(db.vulns[cve]) then db
    else
      var end := EnrichMatchAct(cve, db.vulns[cve], s, input);
      var status := if end.raised then Running else if IsEnrichmentWaiting(end.row) then WaitingEnrichment else Completed;
      Stored(db, cve, end.committed, end.log).(runs := db.runs[run := RunRow(None, status)])
  }

  // ---------- what one pass may write ----------

  /** The statuses a pass writes: a prefix of ENRICHED, MATCHED, ACTIONED, with tickets opened between the last two. */
  ghost predicate PassLog(cve: Cve, log: seq<Entry>) {
    || log == []
    || log == [Wrote(cve, ENRICHED, true)]
    || log == [Wrote(cve, ENRICHED, false)]
    || log == [Wrote(cve, ENRICHED, false), Wrote(cve, MATCHED, false)]
    || exists links: nat :: links >= 1 &&
         (log == [Wrote(cve, ENRICHED, false), Wrote(cve, MATCHED, false), Acted(cve, links)] ||
          log == [Wrote(cve, ENRICHED, false), Wrote(cve, MATCHED, false), Acted(cve, links), Wrote(cve, ACTIONED, false)])
  }

  lemma AfterMatchLog(cve: Cve, v: Vulnerability, input: StageInput)
    ensures PassLog(cve, AfterMatch(cve, v, input).log)
  {
    var log := AfterMatch(cve, v, input).log;
    if input.matching.Matched? && input.matching.links > 0 {
      var front := [Wrote(cve, ENRICHED, false), Wrote(cve, MATCHED, false)];
      assert front + [Acted(cve, input.matching.links)] ==
             [Wrote(cve, ENRICHED, false), Wrote(cve, MATCHED, false), Acted(cve, input.matching.links)];
    }
  }

  /** Main result for one pass: what it writes, and that tickets are opened iff enrichment returned without waiting and
      matching returned a link. */
  lemma PassIsGated(cve: Cve, v: Vulnerability, s: Settings, input: StageInput)
    ensures var end, exit := EnrichMatchAct(cve, v, s, input), EnrichPass(v, s, input.answers);
            && PassLog(cve, end.log)
            && (forall links :: Acted(cve, links) in end.log <==>
                  exit.Returned? && !IsEnrichmentWaiting(exit.row) && input.matching.Matched? && links == input.matching.links >= 1)
  {
    var end, exit := EnrichMatchAct(cve, v, s, input), EnrichPass(v, s, input.answers);
    if exit.Returned? && !IsEnrichmentWaiting(exit.row) {
      AfterMatchLog(cve, exit.row, input);
      if input.matching.Matched? && input.matching.links >= 1 {
        assert end.log[2] == Acted(cve, input.matching.links);
      }
    }
  }

  lemma AfterMatchWritesIff(cve: Cve, v: Vulnerability, input: StageInput)
    ensures var end, m := AfterMatch(cve, v, input), input.matching;
            && Wrote(cve, ENRICHED, false) in end.log && Wrote(cve, ENRICHED, true) !in end.log
            && (Wrote(cve, MATCHED, false) in end.log <==> m.Matched?)
            && (Wrote(cve, ACTIONED, false) in end.log <==> m.Matched? && m.links >= 1 && !input.actRaises)
            && (end.raised <==> m.MatchRaises? || (m.links >= 1 && input.actRaises))
  {
    var end, m := AfterMatch(cve, v, input), input.matching;
    assert end.log[0] == Wrote(cve, ENRICHED, false);
    assert m.Matched? ==> end.log[1] == Wrote(cve, MATCHED, false);
    assert m.Matched? && m.links >= 1 && !input.actRaises ==> end.log[3] == Wrote(cve, ACTIONED, false);
  }

  /** Which status is written, stage by stage, and when the pass breaks off. */
  lemma PassWritesIff(cve: Cve, v: Vulnerability, s: Settings, input: StageInput)
    ensures var end, exit, m := EnrichMatchAct(cve, v, s, input), EnrichPass(v, s, input.answers), input.matching;
            var enriched := exit.Returned? && !IsEnrichmentWaiting(exit.row);
            && (Wrote(cve, ENRICHED, true) in end.log <==> exit.Returned? && IsEnrichmentWaiting(exit.row))
            && (Wrote(cve, ENRICHED, false) in end.log <==> enriched)
            && (Wrote(cve, MATCHED, false) in end.log <==> enriched && m.Matched?)
            && (Wrote(cve, ACTIONED, false) in end.log <==> enriched && m.Matched? && m.links >= 1 && !input.actRaises)
            && (end.raised <==> exit.Raised? || (enriched && (m.MatchRaises? || (m.links >= 1 && input.actRaises))))
  {
    var exit := EnrichPass(v, s, input.answers);
    if exit.Returned? {
      AfterMatchWritesIff(cve, exit.row, input);
      if IsEnrichmentWaiting(exit.row) {
        assert EnrichMatchAct(cve, v, s, input).log == [Wrote(cve, ENRICHED, true)];
      }
    }
  }

  // ---------- the orchestrator ----------

  class PipelineOrchestrator {
    var events: map<nat, EventRow>
    var runs: map<nat, RunRow>
    var vulns: map<Cve, Vulnerability>
    var log: seq<Entry>

    function View(): Db
      reads this
    {
      Db(events, runs, vulns, log)
    }

    constructor ()
      ensures View() == Db(map[], map[], map[], [])
    {
      events, runs, vulns, log := map[], map[], map[], [];
    }

    method FailVulnerability(vuln: Option<Cve>)
      modifies this
      ensures View() == Fail(old(View()), vuln)
    {
      if vuln.Some? && vuln.value in vulns {
        vulns := vulns[vuln.value := ApplyStatus(vulns[vuln.value], FAILED, false)];
        log := log + [Wrote(vuln.value, FAILED, false)];
      }
    }

    /** What `match_assets` writes to the row. */
    static method WriteMatch(row: CveRow, m: MatchAnswer)
      requires m.Matched?
      modifies row
      ensures row.View() == WithMatch(old(row.View()), m)
    {
      row.EnsureIdentity(m.names);
      row.SetStatus(MATCHED, false);
      if m.links == 0 && m.inferred {
        row.aiMatching := true;
        row.enrichment := row.enrichment["inferred_owner" := Object];
      }
    }

    /** `_enrich_match_act` on a row of its own. */
    method EnrichMatchActOn(cve: Cve, v: Vulnerability, s: Settings, input: StageInput) returns (end: PassEnd)
      ensures end == EnrichMatchAct(cve, v, s, input)
    {
      var row := new CveRow(v);
      var raised := row.EnrichCve(s, input.answers);
      if raised {
        return PassEnd(row.View(), v, [], true);
      }
      if IsEnrichmentWaiting(row.View()) {
        return PassEnd(row.View(), row.View(), [Wrote(cve, ENRICHED, true)], false);
      }
      var log := [Wrote(cve, ENRICHED, false)];
      var enriched := row.View();
      if input.matching.MatchRaises? {
        return PassEnd(enriched, enriched, log, true);
      }
      WriteMatch(row, input.matching);
      var matched := row.View();
      log := log + [Wrote(cve, MATCHED, false)];
      if input.matching.links == 0 {
        return PassEnd(matched, matched, log, false);
      }
      log := log + [Acted(cve, input.matching.links)];
      if input.actRaises {
        return PassEnd(matched, matched, log, true);
      }
      row.SetStatus(ACTIONED, false);
      end := PassEnd(row.View(), row.View(), log + [Wrote(cve, ACTIONED, false)], false);
    }

    method ProcessAccepted(cve: Cve, row: Vulnerability, entries: seq<Entry>, s: Settings, input: StageInput)
      returns (paused: bool)
      modifies this
      ensures forall kept: bool, waiting: bool, vuln: Option<Cve> ::
                Loop(View(), Some(cve), true, waiting || paused) ==
                Process(Loop(old(View()), vuln, kept, waiting), cve, row, entries, s, input)
    {
      var end := EnrichMatchActOn(cve, row, s, input);
      vulns := vulns[cve := end.row];
      log := log + (entries + end.log);
      if end.raised {
        FailVulnerability(Some(cve));
        return false;
      }
      paused := IsEnrichmentWaiting(end.row);
    }

    /** One turn of the loop over the extracted CVEs. */
    method Turn(l: Loop, t: Turn, refresh: bool, s: Settings) returns (vuln: Option<Cve>, kept: bool, waiting: bool)
      requires l.db == View()
      modifies this
      ensures Loop(View(), vuln, kept, waiting) == TakeTurn(l, t, refresh, s)
    {
      vuln, kept, waiting := l.vuln, l.kept, l.waiting;
      if t.accept.AcceptRaises? {
        FailVulnerability(vuln);
        return;
      }
      vuln := Some(t.cve);
      if t.cve in vulns && !refresh {
        return;
      }
      kept := true;
      var paused := false;
      if t.cve in vulns {
        paused := ProcessAccepted(t.cve, WithIngested(vulns[t.cve], t.accept.fields), [], s, t.input);
      } else {
        var row := NewRow(t.cve, t.accept.fields);
        if t.finalizeRaises {
          vulns := vulns[t.cve := row];
          log := log + [Wrote(t.cve, INGESTED, false)];
          FailVulnerability(vuln);
          return;
        }
        var created := [Wrote(t.cve, INGESTED, false)] + [Wrote(t.cve, EXTRACTED, false)];
        paused := ProcessAccepted(t.cve, ApplyStatus(row, EXTRACTED, false), created, s, t.input);
      }
      waiting := waiting || paused;
    }

    /** A turn that the stop of the worker cuts off: only what was committed stays. */
    method BeginTurn(t: Turn, refresh: bool, s: Settings)
      modifies this
      ensures View() == CutTurn(old(View()), t, refresh, s)
    {
      if t.accept.AcceptRaises? || (t.cve in vulns && !refresh) {
        return;
      }
      var row, entries := NewRow(t.cve, t.accept.fields), [];
      if t.cve in vulns {
        row := WithIngested(vulns[t.cve], t.accept.fields);
      } else {
        entries := [Wrote(t.cve, INGESTED, false)];
        if t.finalizeRaises {
          vulns := vulns[t.cve := row];
          log := log + entries;
          return;
        }
        row := ApplyStatus(row, EXTRACTED, false);
        entries := entries + [Wrote(t.cve, EXTRACTED, false)];
      }
      var end := EnrichMatchActOn(t.cve, row, s, t.input);
      vulns := vulns[t.cve := end.committed];
      log := log + (entries + end.log);
    }

    method DropEvent(id: nat)
      modifies this
      ensures View() == Dropped(old(View()), id)
    {
      runs := map r | r in runs && runs[r].event != Some(id) :: runs[r];
      events := events - {id};
    }

    method Settle(id: nat, run: nat, event: EventStatus, status: RunStatus)
      requires id in events
      modifies this
      ensures View() == Settled(old(View()), id, run, event, status)
    {
      events := events[id := events[id].(status := event)];
      runs := runs[run := RunRow(Some(id), status)];
    }

    method TakeAllTurns(turns: seq<Turn>, refresh: bool, s: Settings) returns (kept: bool, waiting: bool)
      modifies this
      ensures exists vuln :: Loop(View(), vuln, kept, waiting) == TakeTurns(Start(old(View())), turns, refresh, s)
    {
      var vuln: Option<Cve> := None;
      kept, waiting := false, false;
      for i := 0 to |turns|
        invariant Loop(View(), vuln, kept, waiting) == TakeTurns(Start(old(View())), turns[..i], refresh, s)
      {
        assert turns[..i + 1][..i] == turns[..i];
        vuln, kept, waiting := Turn(Loop(View(), vuln, kept, waiting), turns[i], refresh, s);
      }
      assert turns[..|turns|] == turns;
    }

    /** The whole run, against its specification. */
    method Run(id: nat, run: nat, s: Settings, script: Script)
      modifies this
      ensures View() == RunEvent(old(View()), id, run, s, script)
    {
      if id !in events {
        return;
      }
      var refresh := events[id].refresh;
      Settle(id, run, Processing, Running);
      if script.ExtractRaises? {
        Settle(id, run, EventStatus.Failed, RunFailed);
        return;
      }
      if script.Interrupted? {
        var kept, waiting := TakeAllTurns(script.turns, refresh, s);
        if script.last.Some? {
          BeginTurn(script.last.value, refresh, s);
        }
        return;
      }
      if script.turns == [] {
        DropEvent(id);
        return;
      }
      TurnsKeepEventsAndRuns(Start(View()), script.turns, refresh, s);
      var kept, waiting := TakeAllTurns(script.turns, refresh, s);
      if !kept {
        if events[id].filename != "" {
          Settle(id, run, Skipped, Completed);
        } else {
          DropEvent(id);
        }
        return;
      }
      Settle(id, run, Done, if waiting then WaitingEnrichment else Completed);
    }

    method RetryWaitingEnrichment(cve: Cve, run: nat, s: Settings, input: StageInput)
      modifies this
      ensures View() == Retry(old(View()), cve, run, s, input)
    {
      if cve !in vulns || !IsDue(vulns[cve]) {
        return;
      }
      runs := runs[run := RunRow(None, Running)];
      var end := EnrichMatchActOn(cve, vulns[cve], s, input);
      vulns := vulns[cve := end.committed];
      log := log + end.log;
      if end.raised {
        return;
      }
      runs := runs[run := RunRow(None, if IsEnrichmentWaiting(end.row) then WaitingEnrichment else Completed)];
    }
  }
}
