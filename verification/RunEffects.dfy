/** What the loop of one run does to the rows, the event and the log (app/pipeline/orchestrator.py). */
module RunEffects {
  import opened Enrich
  import opened Orchestrator
  import opened Records
  import opened Wrappers

  // ---------- which rows a run touches ----------

  /** The CVE of the last turn that was accepted, as the variable `vuln` holds it. */
  function LastAccepted(turns: seq<Turn>): Option<Cve> {
    if turns == [] then None
    else if turns[|turns| - 1].accept.Accepts? then Some(turns[|turns| - 1].cve)
    else LastAccepted(turns[..|turns| - 1])
  }

  lemma ProcessTouchesItsRow(l: Loop, cve: Cve, row: Vulnerability, log: seq<Entry>, s: Settings, input: StageInput)
    ensures var after := Process(l, cve, row, log, s, input);
            && after.vuln == Some(cve) && after.kept
            && after.db.vulns.Keys == l.db.vulns.Keys + {cve}
            && forall c | c in l.db.vulns && c != cve :: after.db.vulns[c] == l.db.vulns[c]
  {
  }

  /** An accepted turn changes at most its own row. */
  lemma AcceptedTurnTouchesItsRow(l: Loop, t: Turn, refresh: bool, s: Settings)
    requires t.accept.Accepts?
    ensures var after := TakeTurn(l, t, refresh, s);
            && after.vuln == Some(t.cve)
            && after.kept == (l.kept || refresh || t.cve !in l.db.vulns)
            && after.db.vulns.Keys == l.db.vulns.Keys + {t.cve}
            && forall c | c in l.db.vulns && c != t.cve :: after.db.vulns[c] == l.db.vulns[c]
  {
    if t.cve !in l.db.vulns && !t.finalizeRaises {
      var row := ApplyStatus(NewRow(t.cve, t.accept.fields), EXTRACTED, false);
      ProcessTouchesItsRow(l, t.cve, row, [Wrote(t.cve, INGESTED, false)] + [Wrote(t.cve, EXTRACTED, false)], s, t.input);
    } else if t.cve in l.db.vulns && refresh {
      ProcessTouchesItsRow(l, t.cve, WithIngested(l.db.vulns[t.cve], t.accept.fields), [], s, t.input);
    }
  }

  function AcceptedCves(turns: seq<Turn>): set<Cve> {
    set t | t in turns && t.accept.Accepts? :: t.cve
  }

  lemma {:induction false} LastIsAccepted(turns: seq<Turn>)
    ensures LastAccepted(turns).Some? ==> LastAccepted(turns).value in AcceptedCves(turns)
  {
    if turns != [] {
      LastIsAccepted(turns[..|turns| - 1]);
    }
  }

  /** After some turns `vuln` is the last accepted CVE, and only accepted CVEs were added or changed. */
  ghost predicate After(db: Db, l: Loop, last: Option<Cve>, accepted: set<Cve>) {
    && l.vuln == last && (last.Some? ==> last.value in accepted)
    && l.db.vulns.Keys == db.vulns.Keys + accepted
    && forall c | c in db.vulns && c !in accepted :: l.db.vulns[c] == db.vulns[c]
  }

  lemma AcceptedTurn(db: Db, l: Loop, last: Option<Cve>, accepted: set<Cve>, t: Turn, refresh: bool, s: Settings)
    requires After(db, l, last, accepted) && t.accept.Accepts?
    ensures After(db, TakeTurn(l, t, refresh, s), Some(t.cve), accepted + {t.cve})
  {
    AcceptedTurnTouchesItsRow(l, t, refresh, s);
  }

  lemma RaisingTurn(db: Db, l: Loop, last: Option<Cve>, accepted: set<Cve>, t: Turn, refresh: bool, s: Settings)
    requires After(db, l, last, accepted) && t.accept.AcceptRaises?
    ensures After(db, TakeTurn(l, t, refresh, s), last, accepted)
  {
    if last.Some? {
      assert l.db.vulns.Keys + {last.value} == l.db.vulns.Keys;
    }
  }

  lemma {:induction false} LoopVariables(db: Db, turns: seq<Turn>, refresh: bool, s: Settings)
    ensures After(db, TakeTurns(Start(db), turns, refresh, s), LastAccepted(turns), AcceptedCves(turns))
  {
    if turns == [] {
      assert AcceptedCves(turns) == {};
    } else {
      var front, t := turns[..|turns| - 1], turns[|turns| - 1];
      LoopVariables(db, front, refresh, s);
      assert turns == front + [t];
      assert AcceptedCves(turns) == AcceptedCves(front) + if t.accept.Accepts? then {t.cve} else {};
      var l := TakeTurns(Start(db), front, refresh, s);
      if t.accept.Accepts? {
        AcceptedTurn(db, l, LastAccepted(front), AcceptedCves(front), t, refresh, s);
      } else {
        RaisingTurn(db, l, LastAccepted(front), AcceptedCves(front), t, refresh, s);
      }
    }
  }

  /** Main result: an exception inside `accept_cve` fails the CVE of the last accepted turn, if there is one, and
      leaves every other row, its own included, as it was. */
  lemma AcceptFailureHitsTheLastAccepted(db: Db, turns: seq<Turn>, t: Turn, refresh: bool, s: Settings)
    requires t.accept.AcceptRaises?
    ensures var before := TakeTurns(Start(db), turns, refresh, s);
            var after := TakeTurns(Start(db), turns + [t], refresh, s);
            var hit := LastAccepted(turns);
            && after.db.vulns.Keys == before.db.vulns.Keys
            && (hit.Some? ==> hit.value in after.db.vulns && after.db.vulns[hit.value].status == FAILED)
            && forall c | c in before.db.vulns && Some(c) != hit :: after.db.vulns[c] == before.db.vulns[c]
  {
    assert (turns + [t])[..|turns|] == turns;
    LoopVariables(db, turns, refresh, s);
  }

  ghost predicate DistinctCves(turns: seq<Turn>) {
    forall i, j | 0 <= i < j < |turns| :: turns[i].cve != turns[j].cve
  }

  /** Some accept raises while the variable `vuln` still holds this CVE. */
  ghost predicate IsHit(turns: seq<Turn>, c: Cve) {
    exists i :: 0 <= i < |turns| && turns[i].accept.AcceptRaises? && LastAccepted(turns[..i]) == Some(c)
  }

  lemma HitOneMore(front: seq<Turn>, t: Turn, c: Cve)
    ensures IsHit(front + [t], c) <==> IsHit(front, c) || (t.accept.AcceptRaises? && LastAccepted(front) == Some(c))
  {
    var turns, n := front + [t], |front|;
    assert turns[..n] == front && turns[n] == t;
    assert forall i | 0 <= i < n :: turns[..i] == front[..i] && turns[i] == front[i];
    if IsHit(front, c) {
      var i :| 0 <= i < n && front[i].accept.AcceptRaises? && LastAccepted(front[..i]) == Some(c);
      assert turns[i].accept.AcceptRaises? && LastAccepted(turns[..i]) == Some(c);
    }
    if t.accept.AcceptRaises? && LastAccepted(front) == Some(c) {
      assert turns[n].accept.AcceptRaises? && LastAccepted(turns[..n]) == Some(c);
    }
  }

  function FailedRow(v: Vulnerability): Vulnerability {
    ApplyStatus(v, FAILED, false)
  }

  /** A known CVE that is not refreshed is only named by `vuln`. */
  lemma KnownTurn(l: Loop, t: Turn, s: Settings, c: Cve)
    requires c in l.db.vulns && t.accept.Accepts?
    ensures c in TakeTurn(l, t, false, s).db.vulns && TakeTurn(l, t, false, s).db.vulns[c] == l.db.vulns[c]
  {
    AcceptedTurnTouchesItsRow(l, t, false, s);
  }

  /** Main result: without a refresh, the row of a CVE that was already stored is failed exactly when an accept raises
      while that CVE is the last accepted one, and is left alone otherwise. */
  lemma {:induction false} StoredRowChangesIff(db: Db, turns: seq<Turn>, s: Settings, c: Cve)
    requires c in db.vulns
    ensures var l := TakeTurns(Start(db), turns, false, s);
            c in l.db.vulns && l.db.vulns[c] == if IsHit(turns, c) then FailedRow(db.vulns[c]) else db.vulns[c]
  {
    if turns == [] {
      assert !IsHit(turns, c);
    } else {
      var front, t := turns[..|turns| - 1], turns[|turns| - 1];
      assert turns == front + [t];
      StoredRowChangesIff(db, front, s, c);
      HitOneMore(front, t, c);
      var l := TakeTurns(Start(db), front, false, s);
      LoopVariables(db, front, false, s);
      if t.accept.Accepts? {
        KnownTurn(l, t, s, c);
      }
    }
  }

  // ---------- which events are kept ----------

  /** The turn is accepted for a new CVE, or for any CVE when the event is a refresh. */
  predicate BringsWork(db: Db, t: Turn, refresh: bool) {
    t.accept.Accepts? && (refresh || t.cve !in db.vulns)
  }

  ghost predicate SomeWork(db: Db, turns: seq<Turn>, refresh: bool) {
    exists t :: t in turns && BringsWork(db, t, refresh)
  }

  lemma MoreWork(db: Db, front: seq<Turn>, t: Turn, refresh: bool)
    ensures SomeWork(db, front + [t], refresh) <==> SomeWork(db, front, refresh) || BringsWork(db, t, refresh)
  {
    assert forall u :: u in front + [t] <==> u in front || u == t;
  }

  lemma {:induction false} KeptIffSomeTurnBringsWork(db: Db, turns: seq<Turn>, refresh: bool, s: Settings)
    requires DistinctCves(turns)
    ensures TakeTurns(Start(db), turns, refresh, s).kept <==> SomeWork(db, turns, refresh)
  {
    if turns != [] {
      var front, t := turns[..|turns| - 1], turns[|turns| - 1];
      assert turns == front + [t];
      MoreWork(db, front, t, refresh);
      KeptIffSomeTurnBringsWork(db, front, refresh, s);
      LoopVariables(db, front, refresh, s);
      assert t.cve !in AcceptedCves(front);
      var l := TakeTurns(Start(db), front, refresh, s);
      assert t.cve in l.db.vulns <==> t.cve in db.vulns;
      if t.accept.Accepts? {
        AcceptedTurnTouchesItsRow(l, t, refresh, s);
      }
    }
  }

  /** Main result: an event with CVEs ends done iff some CVE was new or refreshed; otherwise a file event is marked
      skipped and any other event is deleted. */
  lemma EventOutcome(db: Db, id: nat, run: nat, s: Settings, turns: seq<Turn>)
    requires id in db.events && turns != [] && DistinctCves(turns)
    ensures var after, e := RunEvent(db, id, run, s, Extracted(turns)), db.events[id];
            var work := SomeWork(db, turns, e.refresh);
            && (id in after.events <==> work || e.filename != "")
            && (id in after.events ==> after.events[id].status == if work then Done else Skipped)
            && (id in after.events && !work ==> run in after.runs && after.runs[run] == RunRow(Some(id), Completed))
  {
    var started := Started(db, id, run);
    KeptIffSomeTurnBringsWork(started, turns, db.events[id].refresh, s);
    assert forall t :: BringsWork(started, t, db.events[id].refresh) == BringsWork(db, t, db.events[id].refresh);
    TurnsKeepEventsAndRuns(Start(started), turns, db.events[id].refresh, s);
  }

  /** So an event all of whose CVEs fail to be accepted is dropped as if they were all known, and stores none of
      them. */
  lemma AllAcceptsRaise(db: Db, id: nat, run: nat, s: Settings, turns: seq<Turn>)
    requires id in db.events && db.events[id].filename == "" && turns != [] && DistinctCves(turns)
    requires forall t | t in turns :: t.accept.AcceptRaises?
    ensures id !in RunEvent(db, id, run, s, Extracted(turns)).events
    ensures RunEvent(db, id, run, s, Extracted(turns)).vulns == db.vulns
  {
    EventOutcome(db, id, run, s, turns);
    LoopVariables(Started(db, id, run), turns, db.events[id].refresh, s);
    assert AcceptedCves(turns) == {};
  }

  // ---------- when a run is left waiting ----------

  predicate Paused(log: seq<Entry>) {
    exists e :: e in log && e.Wrote? && e.paused
  }

  lemma PausedTogether(a: seq<Entry>, b: seq<Entry>)
    ensures Paused(a + b) <==> Paused(a) || Paused(b)
  {
    if Paused(a) {
      var e :| e in a && e.Wrote? && e.paused;
      assert e in a + b;
    }
    if Paused(b) {
      var e :| e in b && e.Wrote? && e.paused;
      assert e in a + b;
    }
  }

  lemma AfterMatchDoesNotWait(cve: Cve, v: Vulnerability, input: StageInput)
    requires !IsEnrichmentWaiting(v)
    ensures !IsEnrichmentWaiting(AfterMatch(cve, v, input).row)
    ensures !Paused(AfterMatch(cve, v, input).log)
  {
    assert DashboardFor(MATCHED, false)[0] == 'm' && DashboardFor(ACTIONED, false)[0] == 'c' && WAITING_ENRICHMENT[0] == 'w';
  }

  /** A pass that returns leaves the CVE waiting iff it wrote a pausing ENRICHED. */
  lemma PassWaitsIffItPaused(cve: Cve, v: Vulnerability, s: Settings, input: StageInput)
    ensures var end := EnrichMatchAct(cve, v, s, input);
            Paused(end.log) <==> !end.raised && IsEnrichmentWaiting(end.row)
  {
    var exit, end := EnrichPass(v, s, input.answers), EnrichMatchAct(cve, v, s, input);
    if exit.Returned? {
      if IsEnrichmentWaiting(exit.row) {
        assert end.log[0].paused;
      } else {
        AfterMatchDoesNotWait(cve, exit.row, input);
      }
    }
  }

  /** The row with which an accepted CVE enters its stages. */
  function EntryRow(db: Db, t: Turn): Vulnerability
    requires t.accept.Accepts?
  {
    if t.cve in db.vulns then WithIngested(db.vulns[t.cve], t.accept.fields)
    else ApplyStatus(NewRow(t.cve, t.accept.fields), EXTRACTED, false)
  }

  /** Everything an accepted CVE writes in one turn: nothing when it is known and not refreshed, INGESTED and FAILED when
      its extraction cannot be finished, and otherwise INGESTED and EXTRACTED if it is new, the statuses of the pass as
      `PassLog` lists them, and FAILED exactly when the pass raised. */
  lemma AcceptedTurnWrites(l: Loop, t: Turn, refresh: bool, s: Settings)
    requires t.accept.Accepts?
    ensures var known, end := t.cve in l.db.vulns, EnrichMatchAct(t.cve, EntryRow(l.db, t), s, t.input);
            var failed := [Wrote(t.cve, FAILED, false)];
            && PassLog(t.cve, end.log)
            && TakeTurn(l, t, refresh, s).db.log == l.db.log +
               if known && !refresh then []
               else if !known && t.finalizeRaises then [Wrote(t.cve, INGESTED, false)] + failed
               else (if known then [] else [Wrote(t.cve, INGESTED, false)] + [Wrote(t.cve, EXTRACTED, false)]) +
                    end.log + if end.raised then failed else []
  {
    PassIsGated(t.cve, EntryRow(l.db, t), s, t.input);
    if t.cve in l.db.vulns && refresh {
      ProcessWrites(l, t.cve, EntryRow(l.db, t), [], s, t.input);
    } else if t.cve !in l.db.vulns && !t.finalizeRaises {
      ProcessWrites(l, t.cve, EntryRow(l.db, t), [Wrote(t.cve, INGESTED, false)] + [Wrote(t.cve, EXTRACTED, false)], s, t.input);
    }
  }

  lemma ProcessWrites(l: Loop, cve: Cve, row: Vulnerability, log: seq<Entry>, s: Settings, input: StageInput)
    ensures var end := EnrichMatchAct(cve, row, s, input);
            Process(l, cve, row, log, s, input).db.log ==
            l.db.log + (log + end.log + if end.raised then [Wrote(cve, FAILED, false)] else [])
  {
  }

  /** The log grew, and the loop has met a waiting CVE iff a pause is among the new entries. */
  ghost predicate TracksPauses(before: seq<Entry>, was: bool, l: Loop) {
    exists more :: l.db.log == before + more && (l.waiting <==> was || Paused(more))
  }

  lemma ProcessTracksPauses(l: Loop, cve: Cve, row: Vulnerability, log: seq<Entry>, s: Settings, input: StageInput)
    requires !Paused(log)
    ensures TracksPauses(l.db.log, l.waiting, Process(l, cve, row, log, s, input))
  {
    var end, after := EnrichMatchAct(cve, row, s, input), Process(l, cve, row, log, s, input);
    PassWaitsIffItPaused(cve, row, s, input);
    PausedTogether(log, end.log);
    if end.raised {
      var more := log + end.log + [Wrote(cve, FAILED, false)];
      PausedTogether(log + end.log, [Wrote(cve, FAILED, false)]);
      assert after.db.log == l.db.log + more;
    } else {
      assert after.db.log == l.db.log + (log + end.log);
    }
  }

  lemma TurnTracksPauses(l: Loop, t: Turn, refresh: bool, s: Settings)
    ensures TracksPauses(l.db.log, l.waiting, TakeTurn(l, t, refresh, s))
  {
    var after := TakeTurn(l, t, refresh, s);
    var created := [Wrote(t.cve, INGESTED, false)] + [Wrote(t.cve, EXTRACTED, false)];
    assert l.db.log == l.db.log + [];
    if t.accept.Accepts? && t.cve in l.db.vulns && refresh {
      ProcessTracksPauses(l, t.cve, WithIngested(l.db.vulns[t.cve], t.accept.fields), [], s, t.input);
    } else if t.accept.Accepts? && t.cve !in l.db.vulns {
      if t.finalizeRaises {
        var more := [Wrote(t.cve, INGESTED, false)] + [Wrote(t.cve, FAILED, false)];
        assert after.db.log == l.db.log + more;
      } else {
        ProcessTracksPauses(l, t.cve, ApplyStatus(NewRow(t.cve, t.accept.fields), EXTRACTED, false), created, s, t.input);
      }
    } else if t.accept.AcceptRaises? && l.vuln.Some? && l.vuln.value in l.db.vulns {
      var more := [Wrote(l.vuln.value, FAILED, false)];
      assert after.db.log == l.db.log + more;
    }
  }

  lemma TrackTogether(before: seq<Entry>, was: bool, mid: Loop, after: Loop)
    requires TracksPauses(before, was, mid) && TracksPauses(mid.db.log, mid.waiting, after)
    ensures TracksPauses(before, was, after)
  {
    var a :| mid.db.log == before + a && (mid.waiting <==> was || Paused(a));
    var b :| after.db.log == mid.db.log + b && (after.waiting <==> mid.waiting || Paused(b));
    PausedTogether(a, b);
    assert after.db.log == before + (a + b);
  }

  lemma {:induction false} TurnsTrackPauses(l: Loop, turns: seq<Turn>, refresh: bool, s: Settings)
    ensures TracksPauses(l.db.log, l.waiting, TakeTurns(l, turns, refresh, s))
  {
    if turns == [] {
      assert l.db.log == l.db.log + [];
    } else {
      var mid, t := TakeTurns(l, turns[..|turns| - 1], refresh, s), turns[|turns| - 1];
      TurnsTrackPauses(l, turns[..|turns| - 1], refresh, s);
      TurnTracksPauses(mid, t, refresh, s);
      TrackTogether(l.db.log, l.waiting, mid, TakeTurn(mid, t, refresh, s));
    }
  }

  /** A run that keeps its event is left waiting iff one of its CVEs paused at enrichment. */
  lemma RunWaitsIffSomeCvePaused(db: Db, id: nat, run: nat, s: Settings, turns: seq<Turn>)
    requires id in db.events && turns != [] && DistinctCves(turns) && SomeWork(db, turns, db.events[id].refresh)
    ensures var after := RunEvent(db, id, run, s, Extracted(turns));
            exists more :: after.log == db.log + more && run in after.runs &&
              after.runs[run].status == if Paused(more) then WaitingEnrichment else Completed
  {
    var started, refresh := Started(db, id, run), db.events[id].refresh;
    TurnsTrackPauses(Start(started), turns, refresh, s);
    TurnsKeepEventsAndRuns(Start(started), turns, refresh, s);
    KeptIffSomeTurnBringsWork(started, turns, refresh, s);
    assert forall t :: BringsWork(started, t, refresh) == BringsWork(db, t, refresh);
    var l := TakeTurns(Start(started), turns, refresh, s);
    var more :| l.db.log == started.log + more && (l.waiting <==> Paused(more));
    assert RunEvent(db, id, run, s, Extracted(turns)).log == db.log + more;
  }

  // ---------- which paused CVEs are retried ----------

  lemma FailedIsNotDue(v: Vulnerability)
    ensures !IsDue(FailedRow(v))
  {
    assert DashboardFor(FAILED, false)[0] == 'f' && WAITING_ENRICHMENT[0] == 'w';
  }

  lemma {:induction false} LaterTurnsLeaveLast(turns: seq<Turn>, k: nat)
    requires k + 1 < |turns| && turns[k + 1].accept.Accepts? && DistinctCves(turns)
    ensures LastAccepted(turns) != Some(turns[k].cve)
  {
    var front, t := turns[..|turns| - 1], turns[|turns| - 1];
    if t.accept.AcceptRaises? {
      assert front[k] == turns[k] && front[k + 1] == turns[k + 1];
      LaterTurnsLeaveLast(front, k);
    }
  }

  lemma LastAcceptedAt(turns: seq<Turn>, k: nat)
    requires k < |turns| && turns[k].accept.Accepts?
    ensures LastAccepted(turns[..k + 1]) == Some(turns[k].cve)
  {
    assert turns[..k + 1][k] == turns[k];
  }

  /** A turn changes the row of another stored CVE only by failing it, when an accept raises while `vuln` holds it. */
  lemma TurnOnOtherRow(db: Db, front: seq<Turn>, t: Turn, refresh: bool, s: Settings, c: Cve)
    requires c != t.cve && c in TakeTurns(Start(db), front, refresh, s).db.vulns
    ensures var before, after := TakeTurns(Start(db), front, refresh, s), TakeTurns(Start(db), front + [t], refresh, s);
            c in after.db.vulns && after.db.vulns[c] ==
            if t.accept.AcceptRaises? && LastAccepted(front) == Some(c) then FailedRow(before.db.vulns[c]) else before.db.vulns[c]
  {
    assert (front + [t])[..|front|] == front;
    LoopVariables(db, front, refresh, s);
    if t.accept.Accepts? {
      AcceptedTurnTouchesItsRow(TakeTurns(Start(db), front, refresh, s), t, refresh, s);
    }
  }

  /** The row of an accepted CVE after all turns: failed iff the very next accept raises. */
  lemma {:induction false} RowAfterLaterTurns(db: Db, turns: seq<Turn>, k: nat, refresh: bool, s: Settings)
    requires k < |turns| && turns[k].accept.Accepts? && DistinctCves(turns)
    ensures var c := turns[k].cve;
            var then_, end := TakeTurns(Start(db), turns[..k + 1], refresh, s), TakeTurns(Start(db), turns, refresh, s);
            && c in then_.db.vulns && c in end.db.vulns
            && end.db.vulns[c] == if k + 1 < |turns| && turns[k + 1].accept.AcceptRaises? then FailedRow(then_.db.vulns[c])
                                  else then_.db.vulns[c]
  {
    var c := turns[k].cve;
    if k + 1 == |turns| {
      assert turns[..k + 1] == turns;
      AcceptedRowIsStored(db, turns, refresh, s);
    } else {
      var front, t := turns[..|turns| - 1], turns[|turns| - 1];
      assert front[..k + 1] == turns[..k + 1] && front + [t] == turns && front[k] == turns[k];
      RowAfterLaterTurns(db, front, k, refresh, s);
      TurnOnOtherRow(db, front, t, refresh, s, c);
      if k + 1 == |front| {
        LastAcceptedAt(turns, k);
        assert front == turns[..k + 1];
      } else {
        assert front[k + 1] == turns[k + 1];
        if turns[k + 1].accept.Accepts? {
          LaterTurnsLeaveLast(front, k);
        }
      }
    }
  }

  lemma AcceptedRowIsStored(db: Db, turns: seq<Turn>, refresh: bool, s: Settings)
    requires turns != [] && turns[|turns| - 1].accept.Accepts?
    ensures turns[|turns| - 1].cve in TakeTurns(Start(db), turns, refresh, s).db.vulns
  {
    AcceptedTurnTouchesItsRow(TakeTurns(Start(db), turns[..|turns| - 1], refresh, s), turns[|turns| - 1], refresh, s);
  }

  /** Main result: an accepted CVE is due for a retry when the loop ends iff its own turn left it due and the next turn,
      if there is one, is accepted. */
  lemma PausedCveStaysDueIff(db: Db, turns: seq<Turn>, k: nat, refresh: bool, s: Settings)
    requires k < |turns| && turns[k].accept.Accepts? && DistinctCves(turns)
    ensures var c := turns[k].cve;
            var then_, end := TakeTurns(Start(db), turns[..k + 1], refresh, s), TakeTurns(Start(db), turns, refresh, s);
            && c in then_.db.vulns && c in end.db.vulns
            && (IsDue(end.db.vulns[c]) <==>
                IsDue(then_.db.vulns[c]) && (k + 1 == |turns| || turns[k + 1].accept.Accepts?))
  {
    RowAfterLaterTurns(db, turns, k, refresh, s);
    FailedIsNotDue(TakeTurns(Start(db), turns[..k + 1], refresh, s).db.vulns[turns[k].cve]);
  }
}
