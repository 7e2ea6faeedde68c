/** What the Live Workflow pages show for a CVE after a pass: the pipeline's statuses as the classifier reads them. */
module Outcomes {
  import opened Records
  import opened Wrappers
  import E = Enrich
  import O = Orchestrator
  import R = RunEffects
  import S = RunRows
  import W = Workflow

  function Shown(v: Vulnerability, hasMatch: bool, hasTicket: bool): W.RunLabel {
    W.DisplayState(W.ProgressForVuln(v, hasMatch, hasTicket)).1
  }

  lemma FailedIsShown(v: Vulnerability, hasMatch: bool, hasTicket: bool)
    ensures Shown(ApplyStatus(v, FAILED, false), hasMatch, hasTicket) == W.FailedRun
  {
    W.WrittenStatusIsRead(v, FAILED, false);
    W.NormalizedStatuses();
  }

  lemma WaitingIsShown(v: Vulnerability, paused: bool, hasMatch: bool, hasTicket: bool)
    requires IsEnrichmentWaiting(ApplyStatus(v, ENRICHED, paused))
    ensures Shown(ApplyStatus(v, ENRICHED, paused), hasMatch, hasTicket) == W.WaitingRun
  {
    W.WrittenStatusIsRead(v, ENRICHED, paused);
    W.NormalizedStatuses();
    var text := DashboardFor(ENRICHED, paused);
    assert text[0] != 'f' && "failed"[0] == 'f';
  }

  lemma SettledIsShown(v: Vulnerability, status: PipelineStatus, hasTicket: bool)
    requires (status == MATCHED || status == ACTIONED) && !Has(v.enrichment, "waiting")
    ensures Shown(ApplyStatus(v, status, false), status == ACTIONED, hasTicket) ==
            if status == MATCHED then W.UnmatchedRun else W.CompletedRun
  {
    W.WrittenStatusIsRead(v, status, false);
    W.NormalizedStatuses();
    assert DashboardFor(status, false)[0] != WAITING_ENRICHMENT[0];
  }

  lemma SettledPassIsShown(cve: Cve, v: Vulnerability, input: O.StageInput, hasTicket: bool)
    requires !IsEnrichmentWaiting(v) && !O.AfterMatch(cve, v, input).raised
    ensures var hasMatch := input.matching.links > 0;
            Shown(O.AfterMatch(cve, v, input).row, hasMatch, hasTicket) ==
            if hasMatch then W.CompletedRun else W.UnmatchedRun
  {
    R.AfterMatchDoesNotWait(cve, v, input);
    var row, status := O.AfterMatch(cve, v, input).row, if input.matching.links > 0 then ACTIONED else MATCHED;
    SettledIsShown(row, status, hasTicket);
    assert row == ApplyStatus(row, status, false);
  }

  /** Main result: the page shows what the pass did. A pass that raised is failed, one that waits is waiting, one
      without links is unmatched and one that acted is completed, given that the match links shown are those the pass found. */
  lemma PassIsShown(cve: Cve, v: Vulnerability, s: E.Settings, input: O.StageInput, hasTicket: bool)
    ensures var exit, end := E.EnrichPass(v, s, input.answers), O.EnrichMatchAct(cve, v, s, input);
            var hasMatch := input.matching.Matched? && input.matching.links > 0;
            && (end.raised ==> Shown(ApplyStatus(end.row, FAILED, false), hasMatch, hasTicket) == W.FailedRun)
            && (!end.raised ==> Shown(end.row, hasMatch, hasTicket) ==
                                if IsEnrichmentWaiting(exit.row) then W.WaitingRun
                                else if hasMatch then W.CompletedRun else W.UnmatchedRun)
  {
    var exit, end := E.EnrichPass(v, s, input.answers), O.EnrichMatchAct(cve, v, s, input);
    var hasMatch := input.matching.Matched? && input.matching.links > 0;
    FailedIsShown(end.row, hasMatch, hasTicket);
    if !end.raised {
      if IsEnrichmentWaiting(exit.row) {
        E.ReturnsEnriched(v, s, input.answers);
        WaitingIsShown(exit.row, exit.row == ApplyStatus(exit.row, ENRICHED, true), hasMatch, hasTicket);
      } else {
        SettledPassIsShown(cve, exit.row, input, hasTicket);
      }
    }
  }

  /** What the stages of a CVE lead to, from the answers they get: enrichment raises or waits, matching raises or finds
      no link, and with links the opening of tickets raises or the CVE is through. */
  function Led(v: Vulnerability, s: E.Settings, input: O.StageInput): W.RunLabel {
    var exit := E.EnrichPass(v, s, input.answers);
    if exit.Raised? then W.FailedRun
    else if IsEnrichmentWaiting(exit.row) then W.WaitingRun
    else if input.matching.MatchRaises? then W.FailedRun
    else if input.matching.links == 0 then W.UnmatchedRun
    else if input.actRaises then W.FailedRun
    else W.CompletedRun
  }

  predicate HasLinks(input: O.StageInput) {
    input.matching.Matched? && input.matching.links > 0
  }

  lemma RaisesIffFailed(cve: Cve, v: Vulnerability, s: E.Settings, input: O.StageInput)
    ensures O.EnrichMatchAct(cve, v, s, input).raised <==> Led(v, s, input) == W.FailedRun
  {
  }

  lemma TurnRowIsShown(db: O.Db, t: O.Turn, s: E.Settings, hasTicket: bool)
    requires t.accept.Accepts?
    ensures Shown(S.TurnRow(db, t, s), HasLinks(t.input), hasTicket) ==
            if t.cve !in db.vulns && t.finalizeRaises then W.FailedRun else Led(R.EntryRow(db, t), s, t.input)
  {
    if t.cve !in db.vulns && t.finalizeRaises {
      FailedIsShown(O.NewRow(t.cve, t.accept.fields), HasLinks(t.input), hasTicket);
    } else {
      PassIsShown(t.cve, R.EntryRow(db, t), s, t.input, hasTicket);
      RaisesIffFailed(t.cve, R.EntryRow(db, t), s, t.input);
    }
  }

  /** The rows after a complete run are those after its loop. */
  lemma RowsOfTheRun(db: O.Db, id: nat, run: nat, s: E.Settings, turns: seq<O.Turn>)
    requires id in db.events && turns != []
    ensures O.RunEvent(db, id, run, s, O.Extracted(turns)).vulns ==
            O.TakeTurns(O.Start(O.Started(db, id, run)), turns, db.events[id].refresh, s).db.vulns
  {
    O.TurnsKeepEventsAndRuns(O.Start(O.Started(db, id, run)), turns, db.events[id].refresh, s);
  }

  /** Main result: after a whole run, the page shows for every CVE that brought work what its own stages led to, and
      failed when its extraction could not be finished or the accept of the next CVE raised. */
  lemma RunIsShown(db: O.Db, id: nat, run: nat, s: E.Settings, turns: seq<O.Turn>, k: nat, hasTicket: bool)
    requires id in db.events && R.DistinctCves(turns) && k < |turns|
    requires R.BringsWork(db, turns[k], db.events[id].refresh)
    ensures var after, t := O.RunEvent(db, id, run, s, O.Extracted(turns)), turns[k];
            && t.cve in after.vulns
            && Shown(after.vulns[t.cve], HasLinks(t.input), hasTicket) ==
               if k + 1 < |turns| && turns[k + 1].accept.AcceptRaises? then W.FailedRun
               else if t.cve !in db.vulns && t.finalizeRaises then W.FailedRun
               else Led(R.EntryRow(db, t), s, t.input)
  {
    var started, t := O.Started(db, id, run), turns[k];
    RowsOfTheRun(db, id, run, s, turns);
    assert R.BringsWork(started, t, db.events[id].refresh);
    S.LoopStoresThePass(started, turns, k, db.events[id].refresh, s);
    S.SameTurnRow(started, db, t, s);
    FailedIsShown(S.TurnRow(db, t, s), HasLinks(t.input), hasTicket);
    TurnRowIsShown(db, t, s, hasTicket);
  }

  /** The row of the last stage that returned, when the pass breaks off. */
  function LeftBehind(v: Vulnerability, s: E.Settings, input: O.StageInput): Vulnerability {
    var exit := E.EnrichPass(v, s, input.answers);
    if exit.Raised? then v else if input.matching.MatchRaises? then exit.row else O.WithMatch(exit.row, input.matching)
  }

  lemma CommittedIsShown(cve: Cve, v: Vulnerability, s: E.Settings, input: O.StageInput, hasTicket: bool)
    ensures var end, led := O.EnrichMatchAct(cve, v, s, input), Led(v, s, input);
            && (led != W.FailedRun ==> Shown(end.committed, HasLinks(input), hasTicket) == led)
            && (led == W.FailedRun ==> end.committed == LeftBehind(v, s, input))
  {
    var end := O.EnrichMatchAct(cve, v, s, input);
    if end.raised {
      RaisesIffFailed(cve, v, s, input);
    } else {
      S.PassAgrees(cve, v, s, input);
      assert end.committed == end.row;
      PassIsShown(cve, v, s, input, hasTicket);
      RaisesIffFailed(cve, v, s, input);
    }
  }

  lemma WaitsIffLedToWaiting(cve: Cve, v: Vulnerability, s: E.Settings, input: O.StageInput)
    ensures var end, led := O.EnrichMatchAct(cve, v, s, input), Led(v, s, input);
            led != W.FailedRun ==> (IsEnrichmentWaiting(end.row) <==> led == W.WaitingRun)
  {
    var exit := E.EnrichPass(v, s, input.answers);
    if exit.Returned? && !IsEnrichmentWaiting(exit.row) {
      R.AfterMatchDoesNotWait(cve, exit.row, input);
    }
  }

  lemma RetryTables(db: O.Db, cve: Cve, run: nat, s: E.Settings, input: O.StageInput)
    requires cve in db.vulns && O.IsDue(db.vulns[cve])
    ensures var after, end := O.Retry(db, cve, run, s, input), O.EnrichMatchAct(cve, db.vulns[cve], s, input);
            && after.vulns.Keys == db.vulns.Keys && after.events == db.events
            && (forall c | c in db.vulns && c != cve :: after.vulns[c] == db.vulns[c])
            && after.vulns[cve] == end.committed
            && run in after.runs && after.runs[run].event == None
            && after.runs[run].status == if end.raised then O.Running
                                         else if IsEnrichmentWaiting(end.row) then O.WaitingEnrichment else O.Completed
  {
    assert db.vulns.Keys + {cve} == db.vulns.Keys;
  }

  /** Main result: a retry changes the row of its CVE alone. When its pass returns, the page shows what the stages led to
      and the run is closed, waiting iff the CVE still waits. When the pass breaks off, the run stays open and the row is
      the one of the last stage that returned: the row from before, the enriched row, or the matched row. */
  lemma RetryIsShown(db: O.Db, cve: Cve, run: nat, s: E.Settings, input: O.StageInput, hasTicket: bool)
    requires cve in db.vulns && O.IsDue(db.vulns[cve])
    ensures var after, row := O.Retry(db, cve, run, s, input), db.vulns[cve];
            var led := Led(row, s, input);
            && after.vulns.Keys == db.vulns.Keys && after.events == db.events
            && (forall c | c in db.vulns && c != cve :: after.vulns[c] == db.vulns[c])
            && run in after.runs && after.runs[run].event == None
            && (led != W.FailedRun ==>
                  && Shown(after.vulns[cve], HasLinks(input), hasTicket) == led
                  && after.runs[run].status == if led == W.WaitingRun then O.WaitingEnrichment else O.Completed)
            && (led == W.FailedRun ==>
                  after.runs[run].status == O.Running && after.vulns[cve] == LeftBehind(row, s, input))
  {
    RetryTables(db, cve, run, s, input);
    RaisesIffFailed(cve, db.vulns[cve], s, input);
    CommittedIsShown(cve, db.vulns[cve], s, input, hasTicket);
    WaitsIffLedToWaiting(cve, db.vulns[cve], s, input);
  }

  /** A turn that fails keeps the columns of the last stage that came back, or of the one that broke off in enrichment. */
  lemma FailedTurnKeepsItsColumns(db: O.Db, t: O.Turn, s: E.Settings)
    requires t.accept.Accepts? && (t.cve in db.vulns || !t.finalizeRaises)
    requires Led(R.EntryRow(db, t), s, t.input) == W.FailedRun
    ensures var exit := E.EnrichPass(R.EntryRow(db, t), s, t.input.answers);
            S.TurnRow(db, t, s) ==
            ApplyStatus(if exit.Raised? || t.input.matching.MatchRaises? then exit.row
                        else O.WithMatch(exit.row, t.input.matching), FAILED, false)
  {
    RaisesIffFailed(t.cve, R.EntryRow(db, t), s, t.input);
  }

  lemma CutTurnLeaves(db: O.Db, t: O.Turn, refresh: bool, s: E.Settings)
    requires R.BringsWork(db, t, refresh)
    ensures var after := O.CutTurn(db, t, refresh, s);
            && t.cve in after.vulns
            && after.vulns[t.cve] == if t.cve !in db.vulns && t.finalizeRaises then O.NewRow(t.cve, t.accept.fields)
                                     else O.EnrichMatchAct(t.cve, R.EntryRow(db, t), s, t.input).committed
  {
  }

  /** Main result: when the worker is stopped in the turn of a CVE that brings work, its row is left at the last stage that
      came back: newly ingested, extracted, enriched or matched; nothing marks it as failed. */
  lemma InterruptedTurnLeaves(db: O.Db, id: nat, run: nat, s: E.Settings, turns: seq<O.Turn>, t: O.Turn)
    requires id in db.events && R.BringsWork(db, t, db.events[id].refresh) && t.cve !in R.AcceptedCves(turns)
    requires Led(R.EntryRow(db, t), s, t.input) == W.FailedRun
    ensures var after := O.RunEvent(db, id, run, s, O.Interrupted(turns, Some(t)));
            && t.cve in after.vulns
            && after.vulns[t.cve] == if t.cve !in db.vulns && t.finalizeRaises then O.NewRow(t.cve, t.accept.fields)
                                     else LeftBehind(R.EntryRow(db, t), s, t.input)
  {
    var started, refresh := O.Started(db, id, run), db.events[id].refresh;
    var l := O.TakeTurns(O.Start(started), turns, refresh, s);
    R.LoopVariables(started, turns, refresh, s);
    assert R.EntryRow(l.db, t) == R.EntryRow(db, t);
    CutTurnLeaves(l.db, t, refresh, s);
    CommittedIsShown(t.cve, R.EntryRow(db, t), s, t.input, false);
  }
}
