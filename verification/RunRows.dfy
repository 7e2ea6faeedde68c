/** The rows that runs and retries store, against what the log says was written for them (app/pipeline/orchestrator.py). */
module RunRows {
  import opened Enrich
  import opened Orchestrator
  import opened Records
  import opened RunEffects
  import opened RunHistory
  import opened Wrappers

  /** The last status that was written for a CVE. */
  function LastWrite(log: seq<Entry>, c: Cve): (last: Option<Entry>)
    ensures last.Some? ==> last.value.Wrote? && last.value.cve == c
  {
    if log == [] then None
    else if log[|log| - 1].Wrote? && log[|log| - 1].cve == c then Some(log[|log| - 1])
    else LastWrite(log[..|log| - 1], c)
  }

  lemma {:induction false} LastWriteOfBoth(a: seq<Entry>, b: seq<Entry>, c: Cve)
    ensures LastWrite(a + b, c) == if LastWrite(b, c).Some? then LastWrite(b, c) else LastWrite(a, c)
  {
    if b == [] {
      assert a + b == a;
    } else {
      assert (a + b)[..|a + b| - 1] == a + b[..|b| - 1];
      LastWriteOfBoth(a, b[..|b| - 1], c);
    }
  }

  /** The row is as the entry says: its status, the status column, and for an enriched row the markers of waiting. A row
      that was never enriched carries no mark. */
  ghost predicate Agrees(v: Vulnerability, e: Entry) {
    && e.Wrote? && v.status == e.status
    && (e.status == ENRICHED ==>
          && (e.paused <==> IsEnrichmentWaiting(v))
          && (v.pipelineStatus == DashboardFor(ENRICHED, false) || v.pipelineStatus == DashboardFor(ENRICHED, true)))
    && (e.status != ENRICHED ==> !e.paused && v.pipelineStatus == DashboardFor(e.status, false))
    && (e.status == INGESTED || e.status == EXTRACTED ==> !Has(v.enrichment, "waiting"))
  }

  ghost predicate RowAgrees(db: Db, c: Cve) {
    && (c in db.vulns <==> LastWrite(db.log, c).Some?)
    && (c in db.vulns ==> Agrees(db.vulns[c], LastWrite(db.log, c).value))
  }

  ghost predicate RowsAgree(db: Db) {
    forall c: Cve :: RowAgrees(db, c)
  }

  // ---------- one pass ----------

  predicate AllAbout(log: seq<Entry>, cve: Cve) {
    forall e | e in log :: e.cve == cve
  }

  lemma {:induction false} NothingAboutOthers(log: seq<Entry>, cve: Cve, c: Cve)
    requires AllAbout(log, cve) && c != cve
    ensures LastWrite(log, c).None?
  {
    if log != [] {
      assert log[|log| - 1] in log;
      NothingAboutOthers(log[..|log| - 1], cve, c);
    }
  }

  lemma MatchedAgrees(cve: Cve, v: Vulnerability, m: MatchAnswer)
    requires m.Matched?
    ensures Agrees(WithMatch(v, m), Wrote(cve, MATCHED, false))
  {
  }

  lemma ActedAgrees(cve: Cve, v: Vulnerability)
    ensures Agrees(ApplyStatus(v, ACTIONED, false), Wrote(cve, ACTIONED, false))
  {
  }

  lemma EnrichedAgrees(cve: Cve, v: Vulnerability, s: Settings, a: Answers)
    requires EnrichPass(v, s, a).Returned?
    ensures var row := EnrichPass(v, s, a).row; Agrees(row, Wrote(cve, ENRICHED, IsEnrichmentWaiting(row)))
  {
    ReturnsEnriched(v, s, a);
  }

  lemma LastOf(log: seq<Entry>, e: Entry)
    requires e.Wrote?
    ensures LastWrite(log + [e], e.cve) == Some(e)
  {
    assert (log + [e])[..|log|] == log;
  }

  lemma LastBeforeActed(log: seq<Entry>, cve: Cve, links: nat, c: Cve)
    ensures LastWrite(log + [Acted(cve, links)], c) == LastWrite(log, c)
  {
    assert (log + [Acted(cve, links)])[..|log|] == log;
  }

  /** After enrichment without waiting, the row at every exit agrees with the last entry. */
  lemma AfterMatchAgrees(cve: Cve, v: Vulnerability, input: StageInput)
    requires Agrees(v, Wrote(cve, ENRICHED, false))
    ensures var end := AfterMatch(cve, v, input);
            && AllAbout(end.log, cve) && end.row == end.committed
            && LastWrite(end.log, cve).Some? && Agrees(end.row, LastWrite(end.log, cve).value)
  {
    LastOf([], Wrote(cve, ENRICHED, false));
    assert [] + [Wrote(cve, ENRICHED, false)] == [Wrote(cve, ENRICHED, false)];
    if input.matching.Matched? {
      var log := [Wrote(cve, ENRICHED, false), Wrote(cve, MATCHED, false)];
      MatchedAgrees(cve, v, input.matching);
      LastOf([Wrote(cve, ENRICHED, false)], Wrote(cve, MATCHED, false));
      assert [Wrote(cve, ENRICHED, false)] + [Wrote(cve, MATCHED, false)] == log;
      if input.matching.links > 0 {
        var acted := Acted(cve, input.matching.links);
        LastBeforeActed(log, cve, input.matching.links, cve);
        if !input.actRaises {
          ActedAgrees(cve, WithMatch(v, input.matching));
          LastOf(log + [acted], Wrote(cve, ACTIONED, false));
          assert log + [acted] + [Wrote(cve, ACTIONED, false)] == log + [acted, Wrote(cve, ACTIONED, false)];
        }
      }
    }
  }

  /** Main result for one pass: the row that is committed agrees with the last status the pass wrote, or is the row it was
      given when it wrote none; a pass that does not raise commits the row it ends with. */
  lemma PassAgrees(cve: Cve, v: Vulnerability, s: Settings, input: StageInput)
    ensures var end := EnrichMatchAct(cve, v, s, input);
            && AllAbout(end.log, cve) && (!end.raised ==> end.row == end.committed && LastWrite(end.log, cve).Some?)
            && if LastWrite(end.log, cve).Some? then Agrees(end.committed, LastWrite(end.log, cve).value)
               else end.committed == v
  {
    var exit := EnrichPass(v, s, input.answers);
    if exit.Returned? {
      EnrichedAgrees(cve, v, s, input.answers);
      if IsEnrichmentWaiting(exit.row) {
        LastOf([], Wrote(cve, ENRICHED, true));
        assert [] + [Wrote(cve, ENRICHED, true)] == [Wrote(cve, ENRICHED, true)];
      } else {
        AfterMatchAgrees(cve, exit.row, input);
      }
    }
  }

  // ---------- one turn ----------

  /** The row an accepted CVE brings to its stages agrees with what was written for it so far. */
  ghost predicate EntersWith(db: Db, cve: Cve, row: Vulnerability, log: seq<Entry>) {
    && AllAbout(log, cve) && LastWrite(db.log + log, cve).Some?
    && Agrees(row, LastWrite(db.log + log, cve).value)
  }

  /** Storing a row with entries about it. */
  lemma StoringAgrees(db: Db, cve: Cve, row: Vulnerability, log: seq<Entry>)
    requires RowsAgree(db) && EntersWith(db, cve, row, log)
    ensures RowsAgree(Stored(db, cve, row, log))
  {
    forall c: Cve ensures RowAgrees(Stored(db, cve, row, log), c) {
      assert RowAgrees(db, c);
      LastWriteOfBoth(db.log, log, c);
      if c != cve {
        NothingAboutOthers(log, cve, c);
      }
    }
  }

  /** Failing a row, whatever was stored in it just before. */
  lemma FailingAgrees(db: Db, cve: Cve, row: Vulnerability, log: seq<Entry>)
    requires RowsAgree(db) && AllAbout(log, cve)
    ensures RowsAgree(Fail(Stored(db, cve, row, log), Some(cve)))
  {
    var entry := Wrote(cve, FAILED, false);
    var failed := FailedRow(row);
    LastOf(db.log + log, entry);
    assert db.log + (log + [entry]) == db.log + log + [entry];
    StoringAgrees(db, cve, failed, log + [entry]);
    assert Fail(Stored(db, cve, row, log), Some(cve)) == Stored(db, cve, failed, log + [entry]);
  }

  lemma FailAgrees(db: Db, vuln: Option<Cve>)
    requires RowsAgree(db)
    ensures RowsAgree(Fail(db, vuln))
  {
    if vuln.Some? && vuln.value in db.vulns {
      FailingAgrees(db, vuln.value, db.vulns[vuln.value], []);
      assert db.log + [] == db.log && db.vulns[vuln.value := db.vulns[vuln.value]] == db.vulns;
    }
  }

  lemma LastWriteAfter(before: seq<Entry>, log: seq<Entry>, more: seq<Entry>, cve: Cve)
    requires AllAbout(log, cve) && AllAbout(more, cve)
    ensures AllAbout(log + more, cve)
    ensures LastWrite(before + (log + more), cve) ==
            if LastWrite(more, cve).Some? then LastWrite(more, cve) else LastWrite(before + log, cve)
  {
    LastWriteOfBoth(before + log, more, cve);
    assert before + (log + more) == before + log + more;
  }

  lemma EntersAfter(db: Db, cve: Cve, row: Vulnerability, log: seq<Entry>, later: Vulnerability, more: seq<Entry>)
    requires EntersWith(db, cve, row, log) && AllAbout(more, cve)
    requires LastWrite(more, cve).Some? ==> Agrees(later, LastWrite(more, cve).value)
    requires LastWrite(more, cve).None? ==> later == row
    ensures EntersWith(db, cve, later, log + more)
  {
    LastWriteAfter(db.log, log, more, cve);
  }

  lemma CommittedAgrees(db: Db, cve: Cve, row: Vulnerability, log: seq<Entry>, s: Settings, input: StageInput)
    requires RowsAgree(db) && EntersWith(db, cve, row, log)
    ensures RowsAgree(CutPass(db, cve, row, log, s, input))
  {
    var end := EnrichMatchAct(cve, row, s, input);
    PassAgrees(cve, row, s, input);
    EntersAfter(db, cve, row, log, end.committed, end.log);
    StoringAgrees(db, cve, end.committed, log + end.log);
  }

  lemma ProcessAgrees(l: Loop, cve: Cve, row: Vulnerability, log: seq<Entry>, s: Settings, input: StageInput)
    requires RowsAgree(l.db) && EntersWith(l.db, cve, row, log)
    ensures RowsAgree(Process(l, cve, row, log, s, input).db)
  {
    var end := EnrichMatchAct(cve, row, s, input);
    PassAgrees(cve, row, s, input);
    if end.raised {
      FailingAgrees(l.db, cve, end.row, log + end.log);
    } else {
      CommittedAgrees(l.db, cve, row, log, s, input);
    }
  }

  lemma NewEnters(db: Db, t: Turn)
    requires t.accept.Accepts?
    ensures EntersWith(db, t.cve, NewRow(t.cve, t.accept.fields), [Wrote(t.cve, INGESTED, false)])
    ensures EntersWith(db, t.cve, ApplyStatus(NewRow(t.cve, t.accept.fields), EXTRACTED, false),
                       [Wrote(t.cve, INGESTED, false)] + [Wrote(t.cve, EXTRACTED, false)])
  {
    var first, second := Wrote(t.cve, INGESTED, false), Wrote(t.cve, EXTRACTED, false);
    LastOf(db.log, first);
    LastOf(db.log + [first], second);
    assert db.log + ([first] + [second]) == db.log + [first] + [second];
  }

  lemma RefreshedEnters(db: Db, t: Turn)
    requires RowsAgree(db) && t.accept.Accepts? && t.cve in db.vulns
    ensures EntersWith(db, t.cve, WithIngested(db.vulns[t.cve], t.accept.fields), [])
  {
    assert RowAgrees(db, t.cve) && db.log + [] == db.log;
  }

  lemma TurnAgrees(l: Loop, t: Turn, refresh: bool, s: Settings)
    requires RowsAgree(l.db)
    ensures RowsAgree(TakeTurn(l, t, refresh, s).db)
  {
    if t.accept.AcceptRaises? {
      FailAgrees(l.db, l.vuln);
    } else if t.cve in l.db.vulns {
      if refresh {
        RefreshedEnters(l.db, t);
        ProcessAgrees(l, t.cve, WithIngested(l.db.vulns[t.cve], t.accept.fields), [], s, t.input);
      }
    } else {
      NewEnters(l.db, t);
      var row, created := NewRow(t.cve, t.accept.fields), [Wrote(t.cve, INGESTED, false)];
      if t.finalizeRaises {
        FailingAgrees(l.db, t.cve, row, created);
      } else {
        ProcessAgrees(l, t.cve, ApplyStatus(row, EXTRACTED, false), created + [Wrote(t.cve, EXTRACTED, false)], s, t.input);
      }
    }
  }

  lemma {:induction false} TurnsAgree(l: Loop, turns: seq<Turn>, refresh: bool, s: Settings)
    requires RowsAgree(l.db)
    ensures RowsAgree(TakeTurns(l, turns, refresh, s).db)
  {
    if turns != [] {
      TurnsAgree(l, turns[..|turns| - 1], refresh, s);
      TurnAgrees(TakeTurns(l, turns[..|turns| - 1], refresh, s), turns[|turns| - 1], refresh, s);
    }
  }

  lemma CutTurnAgrees(db: Db, t: Turn, refresh: bool, s: Settings)
    requires RowsAgree(db)
    ensures RowsAgree(CutTurn(db, t, refresh, s))
  {
    if t.accept.Accepts? && t.cve in db.vulns && refresh {
      RefreshedEnters(db, t);
      CommittedAgrees(db, t.cve, WithIngested(db.vulns[t.cve], t.accept.fields), [], s, t.input);
    } else if t.accept.Accepts? && t.cve !in db.vulns {
      NewEnters(db, t);
      var row, created := NewRow(t.cve, t.accept.fields), [Wrote(t.cve, INGESTED, false)];
      if t.finalizeRaises {
        StoringAgrees(db, t.cve, row, created);
      } else {
        CommittedAgrees(db, t.cve, ApplyStatus(row, EXTRACTED, false), created + [Wrote(t.cve, EXTRACTED, false)], s, t.input);
      }
    }
  }

  // ---------- histories ----------

  lemma SameTables(a: Db, b: Db)
    requires RowsAgree(a) && a.vulns == b.vulns && a.log == b.log
    ensures RowsAgree(b)
  {
    forall c: Cve ensures RowAgrees(b, c) {
      assert RowAgrees(a, c);
    }
  }

  lemma RunAgrees(db: Db, id: nat, run: nat, s: Settings, script: Script)
    requires RowsAgree(db)
    ensures RowsAgree(RunEvent(db, id, run, s, script))
  {
    if id in db.events {
      var started, refresh := Started(db, id, run), db.events[id].refresh;
      SameTables(db, started);
      match script
      case ExtractRaises => SameTables(started, RunEvent(db, id, run, s, script));
      case Extracted(turns) =>
        TurnsAgree(Start(started), turns, refresh, s);
        TurnsKeepEventsAndRuns(Start(started), turns, refresh, s);
        SameTables(if turns == [] then started else TakeTurns(Start(started), turns, refresh, s).db, RunEvent(db, id, run, s, script));
      case Interrupted(turns, last) =>
        TurnsAgree(Start(started), turns, refresh, s);
        if last.Some? {
          CutTurnAgrees(TakeTurns(Start(started), turns, refresh, s).db, last.value, refresh, s);
        }
    }
  }

  lemma RetryAgrees(db: Db, cve: Cve, run: nat, s: Settings, input: StageInput)
    requires RowsAgree(db)
    ensures RowsAgree(Retry(db, cve, run, s, input))
  {
    if cve in db.vulns && IsDue(db.vulns[cve]) {
      assert RowAgrees(db, cve) && db.log + [] == db.log;
      CommittedAgrees(db, cve, db.vulns[cve], [], s, input);
      var end := EnrichMatchAct(cve, db.vulns[cve], s, input);
      assert [] + end.log == end.log;
      SameTables(CutPass(db, cve, db.vulns[cve], [], s, input), Retry(db, cve, run, s, input));
    }
  }

  lemma {:induction false} HistoryAgrees(jobs: seq<Job>)
    ensures RowsAgree(History(EMPTY, jobs))
  {
    if jobs != [] {
      var front, last := jobs[..|jobs| - 1], jobs[|jobs| - 1];
      HistoryAgrees(front);
      var before := History(EMPTY, front);
      match last
      case QueueJob(id, filename, refresh) => SameTables(before, Do(before, last));
      case RunJob(id, run, s, script) => RunAgrees(before, id, run, s, script);
      case RetryJob(cve, run, s, input) => RetryAgrees(before, cve, run, s, input);
    } else {
      forall c: Cve ensures RowAgrees(EMPTY, c) {
      }
    }
  }

  /** Main result: over every history of ingests, complete and interrupted runs and retries, exactly the CVEs for which a
      status was written are stored, each with the last status written for it in both status columns; an enriched CVE
      waits iff that last write was a pause. */
  lemma StoredRowsAreTheLastWrites(jobs: seq<Job>, c: Cve)
    ensures var db := History(EMPTY, jobs);
            var last := LastWrite(db.log, c);
            && (c in db.vulns <==> last.Some?)
            && (c in db.vulns ==>
                  && db.vulns[c].status == last.value.status
                  && (last.value.status == ENRICHED ==> (IsEnrichmentWaiting(db.vulns[c]) <==> last.value.paused))
                  && (db.vulns[c].pipelineStatus == DashboardFor(last.value.status, false) ||
                      (last.value.paused && db.vulns[c].pipelineStatus == WAITING_ENRICHMENT)))
  {
    HistoryAgrees(jobs);
    assert RowAgrees(History(EMPTY, jobs), c);
    assert DashboardFor(ENRICHED, true) == WAITING_ENRICHMENT;
  }

  /** So a CVE is due for a retry iff the last status written for it was a pausing ENRICHED. */
  lemma DueIffTheLastWritePaused(jobs: seq<Job>, c: Cve)
    ensures var db := History(EMPTY, jobs);
            c in db.vulns ==> (IsDue(db.vulns[c]) <==> LastWrite(db.log, c).Some? && LastWrite(db.log, c).value.paused)
  {
    HistoryAgrees(jobs);
    var db := History(EMPTY, jobs);
    assert RowAgrees(db, c);
    if c in db.vulns {
      DueByAgreement(db.vulns[c], LastWrite(db.log, c).value);
    }
  }

  lemma DueByAgreement(v: Vulnerability, e: Entry)
    requires Agrees(v, e)
    ensures IsDue(v) <==> e.paused
  {
    if e.status != ENRICHED {
      assert DashboardFor(e.status, false)[0] != WAITING_ENRICHMENT[0];
    }
  }

  // ---------- the row of one CVE after a run or a retry ----------

  /** What the turn of a CVE that brings work leaves in its row. */
  function TurnRow(db: Db, t: Turn, s: Settings): Vulnerability
    requires t.accept.Accepts?
  {
    if t.cve !in db.vulns && t.finalizeRaises then FailedRow(NewRow(t.cve, t.accept.fields))
    else
      var end := EnrichMatchAct(t.cve, EntryRow(db, t), s, t.input);
      if end.raised then FailedRow(end.row) else end.row
  }

  lemma TurnStoresItsRow(l: Loop, t: Turn, refresh: bool, s: Settings)
    requires t.accept.Accepts? && (refresh || t.cve !in l.db.vulns)
    ensures t.cve in TakeTurn(l, t, refresh, s).db.vulns
    ensures TakeTurn(l, t, refresh, s).db.vulns[t.cve] == TurnRow(l.db, t, s)
  {
    if t.cve in l.db.vulns {
      ProcessStoresItsRow(l, t.cve, EntryRow(l.db, t), [], s, t.input);
    } else if !t.finalizeRaises {
      ProcessStoresItsRow(l, t.cve, EntryRow(l.db, t), [Wrote(t.cve, INGESTED, false)] + [Wrote(t.cve, EXTRACTED, false)], s, t.input);
    }
  }

  lemma ProcessStoresItsRow(l: Loop, cve: Cve, row: Vulnerability, log: seq<Entry>, s: Settings, input: StageInput)
    ensures var end, after := EnrichMatchAct(cve, row, s, input), Process(l, cve, row, log, s, input);
            cve in after.db.vulns && after.db.vulns[cve] == if end.raised then FailedRow(end.row) else end.row
  {
  }

  lemma NotYetAccepted(turns: seq<Turn>, k: nat)
    requires DistinctCves(turns) && k < |turns|
    ensures turns[k].cve !in AcceptedCves(turns[..k])
  {
    forall t | t in turns[..k] ensures t.cve != turns[k].cve {
      var i :| 0 <= i < k && turns[..k][i] == t;
      assert turns[i] == t;
    }
  }

  /** When the turn of a CVE comes, its row is as it was before the loop. */
  lemma RowBeforeItsTurn(db: Db, turns: seq<Turn>, k: nat, refresh: bool, s: Settings)
    requires DistinctCves(turns) && k < |turns| && turns[k].accept.Accepts?
    ensures var before, c := TakeTurns(Start(db), turns[..k], refresh, s), turns[k].cve;
            && (c in before.db.vulns <==> c in db.vulns)
            && TurnRow(before.db, turns[k], s) == TurnRow(db, turns[k], s)
  {
    LoopVariables(db, turns[..k], refresh, s);
    NotYetAccepted(turns, k);
    SameTurnRow(TakeTurns(Start(db), turns[..k], refresh, s).db, db, turns[k], s);
  }

  lemma SameTurnRow(a: Db, b: Db, t: Turn, s: Settings)
    requires t.accept.Accepts? && (t.cve in a.vulns <==> t.cve in b.vulns)
    requires t.cve in b.vulns ==> a.vulns[t.cve] == b.vulns[t.cve]
    ensures TurnRow(a, t, s) == TurnRow(b, t, s)
  {
    assert EntryRow(a, t) == EntryRow(b, t);
  }

  lemma RowAfterItsTurn(db: Db, turns: seq<Turn>, k: nat, refresh: bool, s: Settings)
    requires DistinctCves(turns) && k < |turns| && BringsWork(db, turns[k], refresh)
    ensures var after, c := TakeTurns(Start(db), turns[..k + 1], refresh, s), turns[k].cve;
            c in after.db.vulns && after.db.vulns[c] == TurnRow(db, turns[k], s)
  {
    RowBeforeItsTurn(db, turns, k, refresh, s);
    TurnStoresItsRow(TakeTurns(Start(db), turns[..k], refresh, s), turns[k], refresh, s);
    assert turns[..k + 1][..k] == turns[..k] && turns[..k + 1][k] == turns[k];
  }

  /** Main result: after a whole loop the row of a CVE that brought work is the row its own pass ended with, failed when the
      pass or the finishing of its extraction raised, or when the accept of the next turn did. */
  lemma LoopStoresThePass(db: Db, turns: seq<Turn>, k: nat, refresh: bool, s: Settings)
    requires DistinctCves(turns) && k < |turns| && BringsWork(db, turns[k], refresh)
    ensures var l, c := TakeTurns(Start(db), turns, refresh, s), turns[k].cve;
            && c in l.db.vulns
            && l.db.vulns[c] == if k + 1 < |turns| && turns[k + 1].accept.AcceptRaises? then FailedRow(TurnRow(db, turns[k], s))
                                else TurnRow(db, turns[k], s)
  {
    RowAfterItsTurn(db, turns, k, refresh, s);
    RowAfterLaterTurns(db, turns, k, refresh, s);
  }

  // ---------- where the columns of a processed CVE come from ----------

  /** The names the match stage fills in, when the pass gets there. */
  function MatchNames(db: Db, t: Turn, s: Settings): Enrich.Names
    requires t.accept.Accepts?
  {
    var exit := EnrichPass(EntryRow(db, t), s, t.input.answers);
    if exit.Returned? && !IsEnrichmentWaiting(exit.row) && t.input.matching.Matched? then t.input.matching.names
    else Enrich.Names("", "")
  }

  /** The names a CVE is given in its turn, in the order in which they count: NVD, the delivery's text as the pass reads it,
      the delivery as it was accepted, the stored row, the advisory text before and after the record, the model, and the
      match stage. */
  function TurnVendors(db: Db, t: Turn, s: Settings): seq<string>
    requires t.accept.Accepts?
  {
    var a, found := t.input.answers, FoundInNvd(s, t.input.answers);
    [if found then a.nvd.value.vendor else "", a.ingested.vendor,
     t.accept.fields.vendor, if t.cve in db.vulns then db.vulns[t.cve].vendor else "",
     a.derived.vendor, if found then a.derivedAfterNvd.vendor else "", if Suggests(s, a) then a.ai.identity.vendor else "",
     MatchNames(db, t, s).vendor]
  }

  function TurnProducts(db: Db, t: Turn, s: Settings): seq<string>
    requires t.accept.Accepts?
  {
    var a, found := t.input.answers, FoundInNvd(s, t.input.answers);
    [if found then a.nvd.value.product else "", a.ingested.product,
     t.accept.fields.product, if t.cve in db.vulns then db.vulns[t.cve].product else "",
     a.derived.product, if found then a.derivedAfterNvd.product else "", if Suggests(s, a) then a.ai.identity.product else "",
     MatchNames(db, t, s).product]
  }

  lemma MatchFillsNames(cve: Cve, v: Vulnerability, input: StageInput)
    ensures var row, m := AfterMatch(cve, v, input).row, input.matching;
            && row.vendor == Pick(v.vendor, if m.Matched? then m.names.vendor else "")
            && row.product == Pick(v.product, if m.Matched? then m.names.product else "")
            && row.cvss == v.cvss && row.epss == v.epss
  {
  }

  lemma StagesFillNames(cve: Cve, v: Vulnerability, s: Settings, input: StageInput)
    requires EnrichPass(v, s, input.answers).Returned?
    ensures var exit, end := EnrichPass(v, s, input.answers), EnrichMatchAct(cve, v, s, input);
            var reached := !IsEnrichmentWaiting(exit.row) && input.matching.Matched?;
            && end.row.vendor == Pick(exit.row.vendor, if reached then input.matching.names.vendor else "")
            && end.row.product == Pick(exit.row.product, if reached then input.matching.names.product else "")
            && end.row.cvss == exit.row.cvss && end.row.epss == exit.row.epss
  {
    MatchFillsNames(cve, EnrichPass(v, s, input.answers).row, input);
  }

  /** The delivered columns come before the stored ones in the row that an accepted CVE brings to its stages. */
  lemma EntryColumns(db: Db, t: Turn)
    requires t.accept.Accepts?
    ensures var row, f := EntryRow(db, t), t.accept.fields;
            && row.vendor == Pick(f.vendor, if t.cve in db.vulns then db.vulns[t.cve].vendor else "")
            && row.product == Pick(f.product, if t.cve in db.vulns then db.vulns[t.cve].product else "")
            && row.cvss == (if f.cvss.Some? then f.cvss else if t.cve in db.vulns then db.vulns[t.cve].cvss else None)
            && row.epss == (if f.epss.Some? then f.epss else if t.cve in db.vulns then db.vulns[t.cve].epss else None)
  {
  }

  lemma VendorOfATurn(db: Db, t: Turn, s: Settings)
    requires t.accept.Accepts? && EnrichPass(EntryRow(db, t), s, t.input.answers).Returned?
    ensures IsFirstGiven(Pick(EnrichPass(EntryRow(db, t), s, t.input.answers).row.vendor, MatchNames(db, t, s).vendor),
                         TurnVendors(db, t, s))
  {
    var row, a := EntryRow(db, t), t.input.answers;
    EntryColumns(db, t);
    NamesHavePrecedence(row, s, a);
    TwoSourcesMore(EnrichPass(row, s, a).row.vendor, TurnVendors(db, t, s), row.vendor);
  }

  lemma ProductOfATurn(db: Db, t: Turn, s: Settings)
    requires t.accept.Accepts? && EnrichPass(EntryRow(db, t), s, t.input.answers).Returned?
    ensures IsFirstGiven(Pick(EnrichPass(EntryRow(db, t), s, t.input.answers).row.product, MatchNames(db, t, s).product),
                         TurnProducts(db, t, s))
  {
    var row, a := EntryRow(db, t), t.input.answers;
    EntryColumns(db, t);
    NamesHavePrecedence(row, s, a);
    TwoSourcesMore(EnrichPass(row, s, a).row.product, TurnProducts(db, t, s), row.product);
  }

  lemma TurnRowOfThePass(db: Db, t: Turn, s: Settings)
    requires t.accept.Accepts? && (t.cve in db.vulns || !t.finalizeRaises)
    ensures var end, row := EnrichMatchAct(t.cve, EntryRow(db, t), s, t.input), TurnRow(db, t, s);
            row.vendor == end.row.vendor && row.product == end.row.product && row.cvss == end.row.cvss && row.epss == end.row.epss
  {
  }

  /** Main result: the columns of a new or refreshed CVE after its turn, whether its later stages raise or not: vendor and
      product are the first name given in the order of their sources, and the scores are those of a found record, else of
      the delivery, else of the stored row. */
  lemma TurnColumns(db: Db, t: Turn, s: Settings)
    requires t.accept.Accepts? && (t.cve in db.vulns || !t.finalizeRaises)
    requires EnrichPass(EntryRow(db, t), s, t.input.answers).Returned?
    ensures var row, a, f := TurnRow(db, t, s), t.input.answers, t.accept.fields;
            && IsFirstGiven(row.vendor, TurnVendors(db, t, s)) && IsFirstGiven(row.product, TurnProducts(db, t, s))
            && row.cvss == (if FoundInNvd(s, a) then a.nvd.value.cvss
                            else if a.ingested.cvss.Some? then a.ingested.cvss else if f.cvss.Some? then f.cvss
                            else if t.cve in db.vulns then db.vulns[t.cve].cvss else None)
            && row.epss == (if s.enabled && s.epss && a.epss.Found? then a.epss.value
                            else if a.ingested.epss.Some? then a.ingested.epss else if f.epss.Some? then f.epss
                            else if t.cve in db.vulns then db.vulns[t.cve].epss else None)
  {
    TurnRowOfThePass(db, t, s);
    StagesFillNames(t.cve, EntryRow(db, t), s, t.input);
    VendorOfATurn(db, t, s);
    ProductOfATurn(db, t, s);
    EntryColumns(db, t);
    ScoresHavePrecedence(EntryRow(db, t), s, t.input.answers);
  }

  lemma MatchMarks(cve: Cve, v: Vulnerability, input: StageInput)
    ensures var row, m := AfterMatch(cve, v, input).row, input.matching;
            && row.aiMatching == (v.aiMatching || (m.Matched? && m.links == 0 && m.inferred))
            && row.aiEnrichment == v.aiEnrichment && row.aiExtraction == v.aiExtraction && row.cveId == v.cveId
  {
  }

  /** After a pass the row says that AI was used for matching iff it said so before or an owner was inferred for a CVE that
      got to the match stage and had no link. */
  lemma AiMatchingIsMarkedIffInferred(cve: Cve, v: Vulnerability, s: Settings, input: StageInput)
    requires EnrichPass(v, s, input.answers).Returned?
    ensures var exit, row, m := EnrichPass(v, s, input.answers), EnrichMatchAct(cve, v, s, input).row, input.matching;
            row.aiMatching ==
            (v.aiMatching || (!IsEnrichmentWaiting(exit.row) && m.Matched? && m.links == 0 && m.inferred))
  {
    AiUseIsMarkedIffItFilled(v, s, input.answers);
    MatchMarks(cve, EnrichPass(v, s, input.answers).row, input);
  }
}
