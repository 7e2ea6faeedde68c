/** Live Workflow: which station a CVE is on and which it has passed (app/services/workflow.py). */
module Workflow {
  import opened Records
  import opened Text
  import opened Wrappers

  datatype Station = Ingest | Extract | Enrich | Match | Act

  function Rank(station: Station): nat {
    match station
    case Ingest => 0
    case Extract => 1
    case Enrich => 2
    case Match => 3
    case Act => 4
  }

  const STATUS_INDEX: map<string, nat> := map[
    "ingested" := 0,
    "extracting" := 1,
    "extracted" := 1,
    "enriching" := 2,
    "waiting_enrichment" := 2,
    "enriched" := 2,
    "ai_fallback" := 2,
    "matching" := 3,
    "matched" := 3,
    "acting" := 4,
    "completed" := 5,
    "actioned" := 5,
    "duplicate" := 0
  ]

  datatype Progress = Progress(
    done: seq<Station>,
    current: Option<Station>,
    column: Station,
    waiting: bool,
    failed: bool,
    unmatched: bool,
    terminal: bool)

  datatype Flags = Flags(intel: bool, waiting: bool, match_: bool, ticket: bool, skipped: bool)

  // ---------- one CVE ----------

  function Normalize(status: string): string {
    Lower(Strip(if status == "" then "ingested" else status))
  }

  /** How far along a normalized status is; the flags decide for a status outside the table. */
  function Cursor(raw: string, f: Flags): nat {
    var cursor :=
      if raw in STATUS_INDEX then STATUS_INDEX[raw]
      else if f.ticket then (if raw in {"completed", "actioned"} then 5 else 4)
      else if f.match_ then 3
      else if f.intel || f.skipped then 2
      else 0;
    if f.waiting && cursor > 2 then 2 else cursor
  }

  function DoneStations(cursor: nat, f: Flags): seq<Station> {
    var reached := (if cursor >= 1 then [Ingest] else []) + (if cursor >= 2 then [Extract] else []);
    var enriched := if cursor >= 3 && (f.intel || f.skipped) && !f.waiting then reached + [Enrich] else reached;
    var matched := if f.match_ && cursor >= 3 then enriched + [Match] else enriched;
    if !f.ticket then matched
    else (if Match !in matched && f.match_ then matched + [Match] else matched) + [Act]
  }

  function Placement(cursor: nat, f: Flags, failed: bool): (Option<Station>, Station) {
    if cursor >= 5 && !failed then
      if f.match_ || f.ticket then (None, Act) else (Some(Match), Match)
    else if f.waiting then (Some(Enrich), Enrich)
    else if cursor >= 4 then (Some(Act), Act)
    else if cursor >= 3 then (Some(Match), Match)
    else if cursor >= 2 then (Some(Enrich), Enrich)
    else if cursor >= 1 then (Some(Extract), Extract)
    else (Some(Ingest), Ingest)
  }

  function WorkflowProgress(status: string, f: Flags): Progress {
    var raw := Normalize(status);
    var failed := raw == "failed";
    var cursor := Cursor(raw, f);
    var (current, column) := Placement(cursor, f, failed);
    var unmatched := column == Match && !f.match_ && !f.waiting && !failed && cursor >= 3;
    Progress(DoneStations(cursor, f), current, column, f.waiting, failed, unmatched,
             (current.None? && column == Act) || unmatched || failed)
  }

  predicate InFlight(p: Progress) {
    p.current.Some? && !p.terminal && !p.failed
  }

  ghost predicate InStationOrder(done: seq<Station>) {
    forall i, j | 0 <= i < j < |done| :: Rank(done[i]) < Rank(done[j])
  }

  lemma DoneIsInStationOrder(cursor: nat, f: Flags)
    ensures InStationOrder(DoneStations(cursor, f))
  {
  }

  /** What the station flags of one CVE promise to every page that reads them. */
  ghost predicate Consistent(p: Progress) {
    && InStationOrder(p.done)
    && (p.waiting ==> p.current == Some(Enrich) && p.column == Enrich && Enrich !in p.done)
    && (p.unmatched ==> Match !in p.done && !p.failed && !p.waiting && p.current == Some(Match))
    && (p.failed ==> p.current.Some?)
    && (Enrich in p.done ==> Extract in p.done)
    && (p.current.None? ==> p.column == Act && !p.failed && !p.unmatched && !p.waiting)
    && (p.terminal <==> p.current.None? || p.unmatched || p.failed)
  }

  /** Every status string and every flag combination gives consistent station flags. */
  lemma ProgressIsConsistent(status: string, f: Flags)
    ensures Consistent(WorkflowProgress(status, f))
  {
    DoneIsInStationOrder(Cursor(Normalize(status), f), f);
  }

  /** Failed, unmatched, completed and in flight: a consistent CVE is exactly one of the four. */
  lemma FourWaySplit(p: Progress)
    requires Consistent(p)
    ensures p.failed || p.unmatched || p.current.None? || InFlight(p)
    ensures !(p.failed && p.unmatched) && !(p.failed && p.current.None?) && !(p.failed && InFlight(p))
    ensures !(p.unmatched && p.current.None?) && !(p.unmatched && InFlight(p))
    ensures !(p.current.None? && InFlight(p))
    ensures p.waiting ==> p.failed || InFlight(p)
  {
  }

  /** `g` is `f` with some facts added and the status no earlier; neither waits. */
  ghost predicate Advances(raw: string, f: Flags, raw': string, g: Flags) {
    && !f.waiting && !g.waiting
    && (f.intel ==> g.intel) && (f.match_ ==> g.match_) && (f.ticket ==> g.ticket) && (f.skipped ==> g.skipped)
    && (raw == raw' || (raw in STATUS_INDEX && raw' in STATUS_INDEX && STATUS_INDEX[raw] <= STATUS_INDEX[raw']))
  }

  lemma CursorAdvances(raw: string, f: Flags, raw': string, g: Flags)
    requires Advances(raw, f, raw', g)
    ensures Cursor(raw, f) <= Cursor(raw', g)
  {
  }

  /** Passed stations are never taken back while a CVE advances. */
  lemma DoneOnlyGrows(status: string, f: Flags, status': string, g: Flags)
    requires Advances(Normalize(status), f, Normalize(status'), g)
    ensures forall st | st in WorkflowProgress(status, f).done :: st in WorkflowProgress(status', g).done
  {
    CursorAdvances(Normalize(status), f, Normalize(status'), g);
    DoneGrows(Cursor(Normalize(status), f), f, Cursor(Normalize(status'), g), g);
  }

  lemma DoneGrows(c: nat, f: Flags, c': nat, g: Flags)
    requires c <= c' && !f.waiting && !g.waiting
    requires (f.intel ==> g.intel) && (f.match_ ==> g.match_) && (f.ticket ==> g.ticket) && (f.skipped ==> g.skipped)
    ensures forall st | st in DoneStations(c, f) :: st in DoneStations(c', g)
  {
    forall st | st in DoneStations(c, f) ensures st in DoneStations(c', g) {
      StationIsDoneIff(c, f, st);
      StationIsDoneIff(c', g, st);
    }
  }

  /** When a station counts as passed. */
  lemma StationIsDoneIff(cursor: nat, f: Flags, st: Station)
    ensures st in DoneStations(cursor, f) <==>
            match st
            case Ingest => cursor >= 1
            case Extract => cursor >= 2
            case Enrich => cursor >= 3 && (f.intel || f.skipped) && !f.waiting
            case Match => f.match_ && (cursor >= 3 || f.ticket)
            case Act => f.ticket
  {
  }

  // ---------- status columns ----------

  /** `_ENUM_TO_PIPELINE`, which is total on the enumeration. */
  function EnumToPipeline(status: PipelineStatus): string {
    match status
    case INGESTED => "ingested"
    case EXTRACTED => "extracting"
    case ENRICHED => "enriching"
    case MATCHED => "matching"
    case ACTIONED => "completed"
    case AI_FALLBACK => "enriching"
    case FAILED => "failed"
  }

  function StatusRank(status: string): int {
    if status in STATUS_INDEX then STATUS_INDEX[status] else -1
  }

  /** The further along of the two status columns, so that rows where they drifted still classify. */
  function EffectivePipelineStatus(vuln: Vulnerability): string {
    var raw := if vuln.pipelineStatus == "" then "" else Normalize(vuln.pipelineStatus);
    var fromEnum := EnumToPipeline(vuln.status);
    if vuln.pipelineStatus == WAITING_ENRICHMENT then WAITING_ENRICHMENT
    else if StatusRank(fromEnum) > StatusRank(raw) then fromEnum
    else if raw != "" then raw
    else fromEnum
  }

  lemma NormalizedStatuses()
    ensures forall st: PipelineStatus, w: bool :: Normalize(DashboardFor(st, w)) == DashboardFor(st, w)
  {
    forall st: PipelineStatus, w: bool ensures Normalize(DashboardFor(st, w)) == DashboardFor(st, w) {
      var text := DashboardFor(st, w);
      assert |text| > 0 && !IsSpace(text[0]) && !IsSpace(text[|text| - 1]);
      assert forall i | 0 <= i < |text| :: !('A' <= text[i] <= 'Z');
      assert Lower(text) == text;
    }
  }

  /** Columns written together by `apply_status` are read back as they were written. */
  lemma WrittenStatusIsRead(vuln: Vulnerability, status: PipelineStatus, waiting: bool)
    ensures EffectivePipelineStatus(ApplyStatus(vuln, status, waiting)) == DashboardFor(status, waiting)
  {
    NormalizedStatuses();
  }

  function HasIntel(vuln: Vulnerability): bool {
    vuln.cvss.Some? || vuln.epss.Some? || Has(vuln.enrichment, "nvd") || Has(vuln.enrichment, "epss")
  }

  function FlagsOf(vuln: Vulnerability, hasMatch: bool, hasTicket: bool): Flags {
    Flags(HasIntel(vuln), IsEnrichmentWaiting(vuln), hasMatch, hasTicket, Has(vuln.enrichment, "skipped"))
  }

  function ProgressForVuln(vuln: Vulnerability, hasMatch: bool, hasTicket: bool): Progress {
    WorkflowProgress(EffectivePipelineStatus(vuln), FlagsOf(vuln, hasMatch, hasTicket))
  }

  // ---------- labels ----------

  datatype RunLabel = FailedRun | WaitingRun | UnmatchedRun | CompletedRun | LiveRun

  /** The station and run label of `display_state`. */
  function DisplayState(p: Progress): (Station, RunLabel) {
    if p.failed then (if p.current.Some? then p.current.value else p.column, FailedRun)
    else if p.waiting then (Enrich, WaitingRun)
    else if p.unmatched then (Match, UnmatchedRun)
    else if p.current.None? then
      if p.done == [] && p.column == Ingest then (Ingest, LiveRun) else (Act, CompletedRun)
    else (p.current.value, LiveRun)
  }

  // ---------- counters over all CVEs ----------

  datatype Classified = Classified(vuln: Vulnerability, progress: Progress, tickets: nat)

  datatype Kpi =
    | KFailed | KWaiting | KUnmatched | KCompleted | KInFlight
    | KExtracted | KEnriched | KMatched
    | KMatchingLive | KActingLive | KActioned
    | KAiExtract | KAiEnrich | KAiMatch | KIncomplete
    | KLive(station: Station)

  predicate ReachedEnrichment(p: Progress) {
    p.waiting || p.current == Some(Enrich) || Extract in p.done || Enrich in p.done
  }

  /** Which CVEs a counter counts. */
  predicate Counts(k: Kpi, item: Classified) {
    var p := item.progress;
    match k
    case KFailed => p.failed
    case KWaiting => p.waiting
    case KUnmatched => p.unmatched
    case KCompleted => p.current.None?
    case KInFlight => InFlight(p)
    case KExtracted => Extract in p.done
    case KEnriched => Enrich in p.done
    case KMatched => Match in p.done
    case KMatchingLive => p.current == Some(Match) && !p.unmatched
    case KActingLive => p.current == Some(Act) && !p.failed
    case KActioned => Act in p.done && p.current.None?
    case KAiExtract => item.vuln.aiExtraction
    case KAiEnrich => item.vuln.aiEnrichment
    case KAiMatch => item.vuln.aiMatching
    case KIncomplete =>
      && ReachedEnrichment(p) && !p.waiting && !Has(item.vuln.enrichment, "skipped")
      && (item.vuln.vendor == "" || item.vuln.product == "" || item.vuln.cvss.None?)
    case KLive(st) => InFlight(p) && p.current == Some(st)
  }

  function One(k: Kpi, item: Classified): nat {
    if Counts(k, item) then 1 else 0
  }

  function Tally(items: seq<Classified>, k: Kpi): nat {
    if items == [] then 0 else Tally(items[..|items| - 1], k) + One(k, items[|items| - 1])
  }

  function TicketTotal(items: seq<Classified>): nat {
    if items == [] then 0 else TicketTotal(items[..|items| - 1]) + items[|items| - 1].tickets
  }

  /** How often a station occurs in the done lists. */
  function PassedTotal(items: seq<Classified>, st: Station): nat {
    if items == [] then 0
    else PassedTotal(items[..|items| - 1], st) + multiset(items[|items| - 1].progress.done)[st]
  }

  /** One number per station. */
  datatype PerStation = PerStation(ingest: nat, extract: nat, enrich: nat, match_: nat, act: nat) {
    function At(st: Station): nat {
      match st
      case Ingest => ingest
      case Extract => extract
      case Enrich => enrich
      case Match => match_
      case Act => act
    }

    function Bump(st: Station): (r: PerStation)
      ensures forall other: Station :: r.At(other) == At(other) + if other == st then 1 else 0
    {
      match st
      case Ingest => this.(ingest := ingest + 1)
      case Extract => this.(extract := extract + 1)
      case Enrich => this.(enrich := enrich + 1)
      case Match => this.(match_ := match_ + 1)
      case Act => this.(act := act + 1)
    }
  }

  datatype Counters = Counters(
    inflight: nat, waiting: nat, unmatched: nat, completed: nat, failed: nat,
    extracted: nat, enriched: nat, matched: nat,
    matchingLive: nat, actingLive: nat, actioned: nat,
    aiExtract: nat, aiEnrich: nat, aiMatch: nat, incomplete: nat,
    tickets: nat, cves: nat,
    live: PerStation, passed: PerStation)

  const ZERO := Counters(0, 0, 0, 0, 0, 0, 0, 0, 0, 0, 0, 0, 0, 0, 0, 0, 0,
                         PerStation(0, 0, 0, 0, 0), PerStation(0, 0, 0, 0, 0))

  /** Every counter is the number of CVEs it stands for. */
  ghost predicate CountsAll(c: Counters, items: seq<Classified>) {
    && CountsRuns(c, items) && CountsStations(c, items) && CountsAi(c, items)
    && (forall st: Station :: c.live.At(st) == Tally(items, KLive(st)))
    && (forall st: Station :: c.passed.At(st) == PassedTotal(items, st))
    && c.tickets == TicketTotal(items) && c.cves == |items|
  }

  ghost predicate CountsRuns(c: Counters, items: seq<Classified>) {
    && c.failed == Tally(items, KFailed)
    && c.waiting == Tally(items, KWaiting)
    && c.unmatched == Tally(items, KUnmatched)
    && c.completed == Tally(items, KCompleted)
    && c.inflight == Tally(items, KInFlight)
  }

  ghost predicate CountsStations(c: Counters, items: seq<Classified>) {
    && c.extracted == Tally(items, KExtracted)
    && c.enriched == Tally(items, KEnriched)
    && c.matched == Tally(items, KMatched)
    && c.matchingLive == Tally(items, KMatchingLive)
    && c.actingLive == Tally(items, KActingLive)
    && c.actioned == Tally(items, KActioned)
  }

  ghost predicate CountsAi(c: Counters, items: seq<Classified>) {
    && c.aiExtract == Tally(items, KAiExtract)
    && c.aiEnrich == Tally(items, KAiEnrich)
    && c.aiMatch == Tally(items, KAiMatch)
    && c.incomplete == Tally(items, KIncomplete)
  }

  /** The inner loop over one CVE's passed stations. */
  method AddPassed(passed: PerStation, done: seq<Station>) returns (r: PerStation)
    ensures forall st: Station :: r.At(st) == passed.At(st) + multiset(done)[st]
  {
    r := passed;
    for j := 0 to |done|
      invariant forall st: Station :: r.At(st) == passed.At(st) + multiset(done[..j])[st]
    {
      assert done[..j + 1] == done[..j] + [done[j]];
      r := r.Bump(done[j]);
    }
    assert done[..|done|] == done;
  }

  /** The counting loop's body for one CVE, in three parts. */
  method CountRun(c: Counters, item: Classified) returns (r: Counters)
    ensures r == c.(failed := r.failed, waiting := r.waiting, unmatched := r.unmatched, completed := r.completed,
                    inflight := r.inflight, live := r.live)
    ensures r.failed == c.failed + One(KFailed, item) && r.waiting == c.waiting + One(KWaiting, item)
    ensures r.unmatched == c.unmatched + One(KUnmatched, item) && r.completed == c.completed + One(KCompleted, item)
    ensures r.inflight == c.inflight + One(KInFlight, item)
    ensures forall st: Station :: r.live.At(st) == c.live.At(st) + One(KLive(st), item)
  {
    var p := item.progress;
    var failed, waiting, unmatched, completed, inflight, live := c.failed, c.waiting, c.unmatched, c.completed, c.inflight, c.live;
    if p.failed { failed := failed + 1; }
    if p.waiting { waiting := waiting + 1; }
    if p.unmatched { unmatched := unmatched + 1; }
    if p.current.None? { completed := completed + 1; }
    if p.current.Some? && !p.terminal && !p.failed {
      inflight := inflight + 1;
      live := live.Bump(p.current.value);
    }
    r := c.(failed := failed, waiting := waiting, unmatched := unmatched, completed := completed,
            inflight := inflight, live := live);
  }

  method CountStations(c: Counters, item: Classified) returns (r: Counters)
    ensures r == c.(extracted := r.extracted, enriched := r.enriched, matched := r.matched,
                    matchingLive := r.matchingLive, actingLive := r.actingLive, actioned := r.actioned, passed := r.passed)
    ensures r.extracted == c.extracted + One(KExtracted, item) && r.enriched == c.enriched + One(KEnriched, item)
    ensures r.matched == c.matched + One(KMatched, item) && r.matchingLive == c.matchingLive + One(KMatchingLive, item)
    ensures r.actingLive == c.actingLive + One(KActingLive, item) && r.actioned == c.actioned + One(KActioned, item)
    ensures forall st: Station :: r.passed.At(st) == c.passed.At(st) + multiset(item.progress.done)[st]
  {
    var p := item.progress;
    var passed := AddPassed(c.passed, p.done);
    var extracted, enriched, matched := c.extracted, c.enriched, c.matched;
    if Extract in p.done { extracted := extracted + 1; }
    if Enrich in p.done { enriched := enriched + 1; }
    if Match in p.done { matched := matched + 1; }
    var matchingLive, actingLive, actioned := c.matchingLive, c.actingLive, c.actioned;
    if p.current == Some(Match) && !p.unmatched { matchingLive := matchingLive + 1; }
    if p.current == Some(Act) && !p.failed { actingLive := actingLive + 1; }
    if Act in p.done && p.current.None? { actioned := actioned + 1; }
    r := c.(extracted := extracted, enriched := enriched, matched := matched,
            matchingLive := matchingLive, actingLive := actingLive, actioned := actioned, passed := passed);
  }

  method CountAi(c: Counters, item: Classified) returns (r: Counters)
    ensures r == c.(aiExtract := r.aiExtract, aiEnrich := r.aiEnrich, aiMatch := r.aiMatch, incomplete := r.incomplete)
    ensures r.aiExtract == c.aiExtract + One(KAiExtract, item) && r.aiEnrich == c.aiEnrich + One(KAiEnrich, item)
    ensures r.aiMatch == c.aiMatch + One(KAiMatch, item) && r.incomplete == c.incomplete + One(KIncomplete, item)
  {
    var p, vuln := item.progress, item.vuln;
    var aiExtract, aiEnrich, aiMatch, incomplete := c.aiExtract, c.aiEnrich, c.aiMatch, c.incomplete;
    if vuln.aiExtraction { aiExtract := aiExtract + 1; }
    if vuln.aiEnrichment { aiEnrich := aiEnrich + 1; }
    if vuln.aiMatching { aiMatch := aiMatch + 1; }
    if ReachedEnrichment(p) && !p.waiting {
      if !Has(vuln.enrichment, "skipped") && (vuln.vendor == "" || vuln.product == "" || vuln.cvss.None?) {
        incomplete := incomplete + 1;
      }
    }
    r := c.(aiExtract := aiExtract, aiEnrich := aiEnrich, aiMatch := aiMatch, incomplete := incomplete);
  }

  method CountWorkflowStates(items: seq<Classified>) returns (c: Counters)
    ensures CountsAll(c, items)
  {
    c := ZERO;
    for i := 0 to |items|
      invariant CountsAll(c, items[..i])
    {
      assert items[..i + 1][..i] == items[..i];
      c := c.(tickets := c.tickets + items[i].tickets, cves := c.cves + 1);
      c := CountRun(c, items[i]);
      c := CountStations(c, items[i]);
      c := CountAi(c, items[i]);
    }
    assert items[..|items|] == items;
  }

  lemma OneCveConserves(item: Classified)
    requires Consistent(item.progress)
    ensures One(KFailed, item) + One(KUnmatched, item) + One(KCompleted, item) + One(KInFlight, item) == 1
    ensures One(KLive(Ingest), item) + One(KLive(Extract), item) + One(KLive(Enrich), item) +
            One(KLive(Match), item) + One(KLive(Act), item) == One(KInFlight, item)
    ensures One(KEnriched, item) <= One(KExtracted, item)
    ensures One(KMatched, item) + One(KUnmatched, item) <= 1
    ensures One(KWaiting, item) <= One(KFailed, item) + One(KLive(Enrich), item)
    ensures One(KActioned, item) <= One(KCompleted, item)
  {
    FourWaySplit(item.progress);
    match item.progress.current {
      case None =>
      case Some(Ingest) =>
      case Some(Extract) =>
      case Some(Enrich) =>
      case Some(Match) =>
      case Some(Act) =>
    }
  }

  /** Main result: every page's label and station agree with the counters the CVE is in. */
  lemma LabelAgreesWithTheCount(item: Classified, status: string, f: Flags)
    requires item.progress == WorkflowProgress(status, f)
    ensures var (station, shown) := DisplayState(item.progress);
            && (Counts(KFailed, item) <==> shown == FailedRun)
            && (Counts(KUnmatched, item) <==> shown == UnmatchedRun)
            && (Counts(KCompleted, item) <==> shown == CompletedRun)
            && (Counts(KInFlight, item) <==> shown == WaitingRun || shown == LiveRun)
            && (Counts(KWaiting, item) <==> f.waiting)
            && (shown == WaitingRun <==> f.waiting && !Counts(KFailed, item))
            && (forall st :: Counts(KLive(st), item) <==> Counts(KInFlight, item) && station == st)
  {
    ProgressIsConsistent(status, f);
  }

  ghost predicate ComputedProgress(p: Progress) {
    exists status: string, f: Flags :: p == WorkflowProgress(status, f)
  }

  /** The progress of every item was computed by `workflow_progress`. */
  ghost predicate Computed(items: seq<Classified>) {
    forall i | 0 <= i < |items| :: ComputedProgress(items[i].progress)
  }

  lemma ComputedIsConsistent(items: seq<Classified>)
    requires Computed(items)
    ensures forall i | 0 <= i < |items| :: Consistent(items[i].progress)
  {
    forall i | 0 <= i < |items| ensures Consistent(items[i].progress) {
      var status: string, f: Flags :| items[i].progress == WorkflowProgress(status, f);
      ProgressIsConsistent(status, f);
    }
  }

  lemma {:induction false} ConsistentCountersConserve(items: seq<Classified>)
    requires forall i | 0 <= i < |items| :: Consistent(items[i].progress)
    ensures Tally(items, KFailed) + Tally(items, KUnmatched) + Tally(items, KCompleted) + Tally(items, KInFlight) == |items|
    ensures Tally(items, KLive(Ingest)) + Tally(items, KLive(Extract)) + Tally(items, KLive(Enrich)) +
            Tally(items, KLive(Match)) + Tally(items, KLive(Act)) == Tally(items, KInFlight)
    ensures Tally(items, KEnriched) <= Tally(items, KExtracted)
    ensures Tally(items, KMatched) + Tally(items, KUnmatched) <= |items|
    ensures Tally(items, KWaiting) <= Tally(items, KFailed) + Tally(items, KLive(Enrich))
    ensures Tally(items, KActioned) <= Tally(items, KCompleted)
  {
    if items != [] {
      ConsistentCountersConserve(items[..|items| - 1]);
      OneCveConserves(items[|items| - 1]);
    }
  }

  /** Main result: the counters conserve the CVEs, whatever their statuses and flags. */
  lemma CountersConserve(items: seq<Classified>, c: Counters)
    requires Computed(items) && CountsAll(c, items)
    ensures c.failed + c.unmatched + c.completed + c.inflight == c.cves == |items|
    ensures c.live.ingest + c.live.extract + c.live.enrich + c.live.match_ + c.live.act == c.inflight
    ensures c.enriched <= c.extracted
    ensures c.matched + c.unmatched <= c.cves
    ensures c.waiting <= c.failed + c.live.enrich
    ensures c.actioned <= c.completed
  {
    ComputedIsConsistent(items);
    ConsistentCountersConserve(items);
    LiveIsTallied(c, items);
  }

  lemma LiveIsTallied(c: Counters, items: seq<Classified>)
    requires CountsAll(c, items)
    ensures c.live == PerStation(Tally(items, KLive(Ingest)), Tally(items, KLive(Extract)), Tally(items, KLive(Enrich)),
                                 Tally(items, KLive(Match)), Tally(items, KLive(Act)))
  {
    assert c.live == PerStation(c.live.At(Ingest), c.live.At(Extract), c.live.At(Enrich), c.live.At(Match), c.live.At(Act));
  }

  lemma {:induction false} OrderedListsDoNotRepeat(done: seq<Station>, st: Station)
    requires InStationOrder(done)
    ensures multiset(done)[st] == if st in done then 1 else 0
  {
    if done != [] {
      var front, last := done[..|done| - 1], done[|done| - 1];
      assert done == front + [last];
      OrderedListsDoNotRepeat(front, st);
      assert forall i | 0 <= i < |front| :: Rank(done[i]) < Rank(done[|done| - 1]);
    }
  }

  /** A station is passed at most once per CVE, so the passed totals are numbers of CVEs. */
  lemma {:induction false} PassedTotalsCountCves(items: seq<Classified>, st: Station, k: Kpi)
    requires forall i | 0 <= i < |items| :: Consistent(items[i].progress)
    ensures PassedTotal(items, st) <= |items|
    ensures (st, k) in {(Extract, KExtracted), (Enrich, KEnriched), (Match, KMatched)} ==>
              PassedTotal(items, st) == Tally(items, k)
  {
    if items != [] {
      PassedTotalsCountCves(items[..|items| - 1], st, k);
      OrderedListsDoNotRepeat(items[|items| - 1].progress.done, st);
    }
  }

  // ---------- classification of the whole table ----------

  datatype MatchRow = MatchRow(vulnId: nat, assetPresent: bool)
  datatype TicketRow = TicketRow(vulnId: nat, key: string)

  function TicketsOf(tickets: seq<TicketRow>, id: nat): seq<TicketRow> {
    if tickets == [] then []
    else
      TicketsOf(tickets[..|tickets| - 1], id) +
      if tickets[|tickets| - 1].vulnId == id then [tickets[|tickets| - 1]] else []
  }

  function MatchesOf(matches: seq<MatchRow>, id: nat): seq<MatchRow> {
    if matches == [] then []
    else
      MatchesOf(matches[..|matches| - 1], id) +
      if matches[|matches| - 1].vulnId == id then [matches[|matches| - 1]] else []
  }

  function PresentAssets(matches: seq<MatchRow>): nat {
    if matches == [] then 0
    else PresentAssets(matches[..|matches| - 1]) + if matches[|matches| - 1].assetPresent then 1 else 0
  }

  /** `_match_payloads`: rows whose asset is gone are not shown. */
  method MatchPayloads(matches: seq<MatchRow>) returns (shown: nat)
    ensures shown == PresentAssets(matches)
    ensures shown > 0 <==> exists i :: 0 <= i < |matches| && matches[i].assetPresent
  {
    shown := 0;
    for i := 0 to |matches|
      invariant shown == PresentAssets(matches[..i])
      invariant shown > 0 <==> exists j :: 0 <= j < i && matches[j].assetPresent
    {
      assert matches[..i + 1][..i] == matches[..i];
      if matches[i].assetPresent {
        shown := shown + 1;
      }
    }
    assert matches[..|matches|] == matches;
  }

  datatype VulnRow = VulnRow(id: nat, vuln: Vulnerability)

  ghost predicate GroupedMatches(ids: set<nat>, byId: map<nat, seq<MatchRow>>, matches: seq<MatchRow>) {
    forall id | id in ids :: (if id in byId then byId[id] else []) == MatchesOf(matches, id)
  }

  ghost predicate GroupedTickets(ids: set<nat>, byId: map<nat, seq<TicketRow>>, tickets: seq<TicketRow>) {
    forall id | id in ids :: (if id in byId then byId[id] else []) == TicketsOf(tickets, id)
  }

  /** The match rows grouped by CVE, in table order. */
  method GroupMatches(ids: set<nat>, matches: seq<MatchRow>) returns (byId: map<nat, seq<MatchRow>>)
    ensures GroupedMatches(ids, byId, matches)
  {
    byId := map[];
    for i := 0 to |matches|
      invariant GroupedMatches(ids, byId, matches[..i])
    {
      var row := matches[i];
      OneMoreMatch(ids, byId, matches, i);
      if row.vulnId in ids {
        byId := byId[row.vulnId := (if row.vulnId in byId then byId[row.vulnId] else []) + [row]];
      }
    }
    assert matches[..|matches|] == matches;
  }

  lemma OneMoreMatch(ids: set<nat>, byId: map<nat, seq<MatchRow>>, matches: seq<MatchRow>, i: nat)
    requires i < |matches| && GroupedMatches(ids, byId, matches[..i])
    ensures var row := matches[i];
            var more := (if row.vulnId in byId then byId[row.vulnId] else []) + [row];
            GroupedMatches(ids, if row.vulnId in ids then byId[row.vulnId := more] else byId, matches[..i + 1])
  {
    assert matches[..i + 1][..i] == matches[..i];
  }

  method GroupTickets(ids: set<nat>, tickets: seq<TicketRow>) returns (byId: map<nat, seq<TicketRow>>)
    ensures GroupedTickets(ids, byId, tickets)
  {
    byId := map[];
    for i := 0 to |tickets|
      invariant GroupedTickets(ids, byId, tickets[..i])
    {
      var row := tickets[i];
      OneMoreTicket(ids, byId, tickets, i);
      if row.vulnId in ids {
        byId := byId[row.vulnId := (if row.vulnId in byId then byId[row.vulnId] else []) + [row]];
      }
    }
    assert tickets[..|tickets|] == tickets;
  }

  lemma OneMoreTicket(ids: set<nat>, byId: map<nat, seq<TicketRow>>, tickets: seq<TicketRow>, i: nat)
    requires i < |tickets| && GroupedTickets(ids, byId, tickets[..i])
    ensures var row := tickets[i];
            var more := (if row.vulnId in byId then byId[row.vulnId] else []) + [row];
            GroupedTickets(ids, if row.vulnId in ids then byId[row.vulnId := more] else byId, tickets[..i + 1])
  {
    assert tickets[..i + 1][..i] == tickets[..i];
  }

  function ClassifiedRow(row: VulnRow, matches: seq<MatchRow>, tickets: seq<TicketRow>): Classified {
    var hasMatch := PresentAssets(MatchesOf(matches, row.id)) > 0;
    var own := TicketsOf(tickets, row.id);
    Classified(row.vuln, ProgressForVuln(row.vuln, hasMatch, own != []), |own|)
  }

  ghost predicate AreClassified(classified: seq<Classified>, vulns: seq<VulnRow>, matches: seq<MatchRow>,
                                tickets: seq<TicketRow>) {
    |classified| == |vulns| && forall i | 0 <= i < |vulns| :: classified[i] == ClassifiedRow(vulns[i], matches, tickets)
  }

  lemma OneMoreClassified(classified: seq<Classified>, vulns: seq<VulnRow>, i: nat, item: Classified,
                          matches: seq<MatchRow>, tickets: seq<TicketRow>)
    requires i < |vulns| && AreClassified(classified, vulns[..i], matches, tickets)
    requires item == ClassifiedRow(vulns[i], matches, tickets)
    ensures AreClassified(classified + [item], vulns[..i + 1], matches, tickets)
  {
    var more := classified + [item];
    forall j | 0 <= j < i + 1 ensures more[j] == ClassifiedRow(vulns[..i + 1][j], matches, tickets) {
      assert j < i ==> vulns[..i + 1][j] == vulns[..i][j];
    }
  }

  /** `classify_vulnerabilities`: the two groupings joined to each CVE. */
  method ClassifyVulnerabilities(vulns: seq<VulnRow>, matches: seq<MatchRow>, tickets: seq<TicketRow>)
    returns (classified: seq<Classified>)
    ensures AreClassified(classified, vulns, matches, tickets)
  {
    var ids := set row | row in vulns :: row.id;
    var matchesById := GroupMatches(ids, matches);
    var ticketsById := GroupTickets(ids, tickets);
    classified := [];
    for i := 0 to |vulns|
      invariant AreClassified(classified, vulns[..i], matches, tickets)
    {
      assert vulns[i] in vulns && vulns[i].id in ids;
      var item := ClassifyOne(vulns[i], ids, matchesById, ticketsById, matches, tickets);
      OneMoreClassified(classified, vulns, i, item, matches, tickets);
      classified := classified + [item];
    }
    assert vulns[..|vulns|] == vulns;
  }

  method ClassifyOne(row: VulnRow, ghost ids: set<nat>, matchesById: map<nat, seq<MatchRow>>,
                     ticketsById: map<nat, seq<TicketRow>>, ghost matches: seq<MatchRow>, ghost tickets: seq<TicketRow>)
    returns (item: Classified)
    requires row.id in ids && GroupedMatches(ids, matchesById, matches) && GroupedTickets(ids, ticketsById, tickets)
    ensures item == ClassifiedRow(row, matches, tickets)
  {
    var shown := MatchPayloads(if row.id in matchesById then matchesById[row.id] else []);
    var own := if row.id in ticketsById then ticketsById[row.id] else [];
    item := Classified(row.vuln, ProgressForVuln(row.vuln, shown > 0, own != []), |own|);
  }

  lemma ClassifiedRowIsComputed(row: VulnRow, matches: seq<MatchRow>, tickets: seq<TicketRow>)
    ensures ComputedProgress(ClassifiedRow(row, matches, tickets).progress)
  {
    var f := FlagsOf(row.vuln, PresentAssets(MatchesOf(matches, row.id)) > 0, TicketsOf(tickets, row.id) != []);
    assert ClassifiedRow(row, matches, tickets).progress == WorkflowProgress(EffectivePipelineStatus(row.vuln), f);
  }

  lemma ClassifiedRowsAreComputed(vulns: seq<VulnRow>, matches: seq<MatchRow>, tickets: seq<TicketRow>,
                                  items: seq<Classified>)
    requires AreClassified(items, vulns, matches, tickets)
    ensures Computed(items)
  {
    forall i | 0 <= i < |items| ensures ComputedProgress(items[i].progress) {
      ClassifiedRowIsComputed(vulns[i], matches, tickets);
    }
  }

  // ---------- the classified table, on the columns ----------

  ghost predicate HasTicketRow(tickets: seq<TicketRow>, id: nat) {
    exists i :: 0 <= i < |tickets| && tickets[i].vulnId == id
  }

  /** Some match row of the CVE has an asset that is still there. */
  ghost predicate HasPresentAsset(matches: seq<MatchRow>, id: nat) {
    exists i :: 0 <= i < |matches| && matches[i].vulnId == id && matches[i].assetPresent
  }

  /** The positions of the ticket rows of a CVE. */
  ghost function TicketPlaces(tickets: seq<TicketRow>, id: nat): set<nat> {
    set i: nat | i < |tickets| && tickets[i].vulnId == id
  }

  lemma {:induction false} TicketsAreTheRows(tickets: seq<TicketRow>, id: nat)
    ensures |TicketsOf(tickets, id)| == |TicketPlaces(tickets, id)|
    ensures TicketsOf(tickets, id) != [] <==> HasTicketRow(tickets, id)
  {
    if tickets == [] {
      assert TicketPlaces(tickets, id) == {};
    } else {
      var n := |tickets| - 1;
      TicketsAreTheRows(tickets[..n], id);
      assert TicketPlaces(tickets, id) ==
             TicketPlaces(tickets[..n], id) + if tickets[n].vulnId == id then {n} else {};
    }
  }

  lemma {:induction false} PresentAssetsAreTheRows(matches: seq<MatchRow>, id: nat)
    ensures PresentAssets(MatchesOf(matches, id)) > 0 <==> HasPresentAsset(matches, id)
  {
    if matches != [] {
      var n := |matches| - 1;
      PresentAssetsAreTheRows(matches[..n], id);
      var front, last := MatchesOf(matches[..n], id), matches[n];
      assert HasPresentAsset(matches, id) <==>
             HasPresentAsset(matches[..n], id) || (last.vulnId == id && last.assetPresent);
      assert (front + [last])[..|front|] == front && front + [] == front;
    }
  }

  function StageOf(raw: string): Option<nat> {
    if raw in STATUS_INDEX then Some(STATUS_INDEX[raw]) else None
  }

  /** The stage that the status columns name. */
  function Stage(vuln: Vulnerability): Option<nat> {
    StageOf(Normalize(EffectivePipelineStatus(vuln)))
  }

  lemma StagesAreBounded(raw: string)
    ensures StageOf(raw).Some? ==> StageOf(raw).value <= 5 && raw != "failed"
    ensures StageOf(raw).None? ==> raw != "completed" && raw != "actioned"
  {
  }

  /** Where the cursor stands, by the stage or, for a status outside the table, by the flags. */
  lemma CursorByStage(raw: string, f: Flags)
    ensures var stage, cursor := StageOf(raw), Cursor(raw, f);
            && (f.waiting ==> cursor <= 2)
            && (!f.waiting && stage.Some? ==> cursor == stage.value <= 5)
            && (!f.waiting && stage.None? ==> cursor == if f.ticket then 4 else if f.match_ then 3
                                                        else if f.intel || f.skipped then 2 else 0)
  {
    StagesAreBounded(raw);
  }

  /** Where a CVE stands: held at enrichment, at the station of its stage, through, or for a status outside the table as far
      as its tickets, matches and scores say. */
  function StationByStage(stage: Option<nat>, f: Flags): Option<Station> {
    if f.waiting then Some(Enrich)
    else if stage.None? then
      Some(if f.ticket then Act else if f.match_ then Match else if f.intel || f.skipped then Enrich else Ingest)
    else if stage.value >= 5 then (if f.match_ || f.ticket then None else Some(Match))
    else if stage.value == 4 then Some(Act)
    else if stage.value == 3 then Some(Match)
    else if stage.value == 2 then Some(Enrich)
    else if stage.value == 1 then Some(Extract)
    else Some(Ingest)
  }

  lemma CurrentByStage(status: string, f: Flags)
    ensures WorkflowProgress(status, f).current == StationByStage(StageOf(Normalize(status)), f)
  {
    StagesAreBounded(Normalize(status));
    CursorByStage(Normalize(status), f);
  }

  lemma ExtractByStage(raw: string, f: Flags)
    ensures var stage := StageOf(raw);
            Extract in DoneStations(Cursor(raw, f), f) <==>
            if stage.Some? then stage.value >= 2 else f.ticket || f.match_ || f.intel || f.skipped
  {
    StagesAreBounded(raw);
    StationIsDoneIff(Cursor(raw, f), f, Extract);
  }

  lemma PlacedByStage(status: string, f: Flags)
    ensures var p, stage := WorkflowProgress(status, f), StageOf(Normalize(status));
            && (Act in p.done <==> f.ticket)
            && (Match in p.done <==> f.match_ && (f.ticket || (!f.waiting && (stage.Some? ==> stage.value >= 3))))
            && (Enrich in p.done <==> (f.intel || f.skipped) && !f.waiting &&
                                      (if stage.Some? then stage.value >= 3 else f.match_ || f.ticket))
            && (Extract in p.done <==> if stage.Some? then stage.value >= 2 else f.ticket || f.match_ || f.intel || f.skipped)
            && p.current == StationByStage(stage, f)
            && (p.unmatched <==> !f.match_ && p.current == Some(Match))
  {
    var raw := Normalize(status);
    StagesAreBounded(raw);
    CursorByStage(raw, f);
    CurrentByStage(status, f);
    ExtractByStage(raw, f);
    StationIsDoneIff(Cursor(raw, f), f, Act);
    StationIsDoneIff(Cursor(raw, f), f, Match);
    StationIsDoneIff(Cursor(raw, f), f, Enrich);
  }

  /** A score, an NVD or EPSS entry, or the note that the lookups are switched off. */
  predicate KnowsRisk(vuln: Vulnerability) {
    || vuln.cvss.Some? || vuln.epss.Some?
    || Has(vuln.enrichment, "nvd") || Has(vuln.enrichment, "epss") || Has(vuln.enrichment, "skipped")
  }

  /** The station of a CVE, by its columns and by whether it has an asset and a ticket. */
  function StationOf(vuln: Vulnerability, asset: bool, ticket: bool): Option<Station> {
    if IsEnrichmentWaiting(vuln) then Some(Enrich)
    else match Stage(vuln)
      case None => Some(if ticket then Act else if asset then Match else if KnowsRisk(vuln) then Enrich else Ingest)
      case Some(stage) =>
        if stage == 0 then Some(Ingest) else if stage == 1 then Some(Extract) else if stage == 2 then Some(Enrich)
        else if stage == 3 then Some(Match) else if stage == 4 then Some(Act)
        else if asset || ticket then None else Some(Match)
  }

  predicate IsPastExtraction(vuln: Vulnerability, asset: bool, ticket: bool) {
    if Stage(vuln).Some? then Stage(vuln).value >= 2 else ticket || asset || KnowsRisk(vuln)
  }

  predicate IsFailed(vuln: Vulnerability) {
    Normalize(EffectivePipelineStatus(vuln)) == "failed"
  }

  /** What the answer for one CVE says about the tables. A status outside the stage table, such as failed, is placed by
      the tickets and matches alone. */
  ghost predicate AnswersFor(item: Classified, row: VulnRow, matches: seq<MatchRow>, tickets: seq<TicketRow>) {
    var p, waits := item.progress, IsEnrichmentWaiting(row.vuln);
    var asset, ticket := HasPresentAsset(matches, row.id), HasTicketRow(tickets, row.id);
    && item.vuln == row.vuln && item.tickets == |TicketPlaces(tickets, row.id)|
    && (Extract in p.done <==> IsPastExtraction(row.vuln, asset, ticket))
    && (Enrich in p.done <==> KnowsRisk(row.vuln) && !waits &&
                              (if Stage(row.vuln).Some? then Stage(row.vuln).value >= 3 else asset || ticket))
    && (Match in p.done <==> asset && (ticket || (!waits && (Stage(row.vuln).Some? ==> Stage(row.vuln).value >= 3))))
    && (Act in p.done <==> ticket)
    && p.current == StationOf(row.vuln, asset, ticket)
    && (p.unmatched <==> !asset && p.current == Some(Match))
    && (p.failed <==> IsFailed(row.vuln)) && (p.waiting <==> waits)
  }

  lemma FlagsOfTheRow(vuln: Vulnerability, hasMatch: bool, hasTicket: bool)
    ensures var f := FlagsOf(vuln, hasMatch, hasTicket);
            && (f.intel || f.skipped <==> KnowsRisk(vuln))
            && f.waiting == IsEnrichmentWaiting(vuln) && f.match_ == hasMatch && f.ticket == hasTicket
  {
  }

  lemma RowProgress(row: VulnRow, matches: seq<MatchRow>, tickets: seq<TicketRow>)
    ensures var item := ClassifiedRow(row, matches, tickets);
            && item.vuln == row.vuln && item.tickets == |TicketPlaces(tickets, row.id)|
            && item.progress ==
               WorkflowProgress(EffectivePipelineStatus(row.vuln),
                                FlagsOf(row.vuln, HasPresentAsset(matches, row.id), HasTicketRow(tickets, row.id)))
  {
    TicketsAreTheRows(tickets, row.id);
    PresentAssetsAreTheRows(matches, row.id);
  }

  lemma AnswerIsOnTheTables(row: VulnRow, matches: seq<MatchRow>, tickets: seq<TicketRow>)
    ensures AnswersFor(ClassifiedRow(row, matches, tickets), row, matches, tickets)
  {
    var asset, ticket := HasPresentAsset(matches, row.id), HasTicketRow(tickets, row.id);
    RowProgress(row, matches, tickets);
    FlagsOfTheRow(row.vuln, asset, ticket);
    PlacedByStage(EffectivePipelineStatus(row.vuln), FlagsOf(row.vuln, asset, ticket));
    StagesAreBounded(Normalize(EffectivePipelineStatus(row.vuln)));
  }

  /** Main result: what `classify_vulnerabilities` answers, read off the tables: every CVE in its order with the number of
      its ticket rows, acted on iff it has one, matched or unmatched by whether a match row of its own has an asset that
      is still there, completed iff its status says so and it has an asset or a ticket. */
  lemma ClassifiedOnTheTables(vulns: seq<VulnRow>, matches: seq<MatchRow>, tickets: seq<TicketRow>,
                              items: seq<Classified>)
    requires AreClassified(items, vulns, matches, tickets)
    ensures |items| == |vulns| && forall i | 0 <= i < |vulns| :: AnswersFor(items[i], vulns[i], matches, tickets)
  {
    forall i | 0 <= i < |vulns| ensures AnswersFor(items[i], vulns[i], matches, tickets) {
      AnswerIsOnTheTables(vulns[i], matches, tickets);
    }
  }

  lemma StageOfWritten(status: PipelineStatus)
    requires status != FAILED
    ensures StageOf(DashboardFor(status, false)) == Some(match status
                                                         case INGESTED => 0
                                                         case EXTRACTED => 1
                                                         case ENRICHED => 2
                                                         case AI_FALLBACK => 2
                                                         case MATCHED => 3
                                                         case ACTIONED => 5)
    ensures DashboardFor(status, false) != "failed" && DashboardFor(status, false) != WAITING_ENRICHMENT
  {
    assert DashboardFor(status, false)[0] != WAITING_ENRICHMENT[0];
    assert DashboardFor(status, false)[0] != "failed"[0];
  }

  /** The station of a CVE whose columns the pipeline wrote last with this status. */
  lemma WrittenStatusIsPlaced(vuln: Vulnerability, status: PipelineStatus, hasMatch: bool, hasTicket: bool)
    requires !Has(vuln.enrichment, "waiting") && status != FAILED
    ensures ProgressForVuln(ApplyStatus(vuln, status, false), hasMatch, hasTicket).current ==
            match status
            case INGESTED => Some(Ingest)
            case EXTRACTED => Some(Extract)
            case ENRICHED => Some(Enrich)
            case AI_FALLBACK => Some(Enrich)
            case MATCHED => Some(Match)
            case ACTIONED => if hasMatch || hasTicket then None else Some(Match)
  {
    var row := ApplyStatus(vuln, status, false);
    StageOfWritten(status);
    WrittenStatusIsRead(vuln, status, false);
    NormalizedStatuses();
    CurrentByStage(EffectivePipelineStatus(row), FlagsOf(row, hasMatch, hasTicket));
  }

  // ---------- the counters, on the tables ----------

  /** Which CVEs a counter of the dashboard counts, read off the tables. */
  ghost predicate CountedFor(k: Kpi, row: VulnRow, matches: seq<MatchRow>, tickets: seq<TicketRow>) {
    var v, waits := row.vuln, IsEnrichmentWaiting(row.vuln);
    var asset, ticket := HasPresentAsset(matches, row.id), HasTicketRow(tickets, row.id);
    var station := StationOf(v, asset, ticket);
    match k
    case KFailed => IsFailed(v)
    case KWaiting => waits
    case KUnmatched => !asset && station == Some(Match)
    case KCompleted => station == None
    case KInFlight => IsMoving(v, asset, ticket)
    case KExtracted => IsPastExtraction(v, asset, ticket)
    case KEnriched => KnowsRisk(v) && !waits && (if Stage(v).Some? then Stage(v).value >= 3 else asset || ticket)
    case KMatched => asset && (ticket || (!waits && (Stage(v).Some? ==> Stage(v).value >= 3)))
    case KMatchingLive => asset && station == Some(Match)
    case KActingLive => station == Some(Act) && !IsFailed(v)
    case KActioned => ticket && station == None
    case KAiExtract => v.aiExtraction
    case KAiEnrich => v.aiEnrichment
    case KAiMatch => v.aiMatching
    case KIncomplete =>
      && IsPastExtraction(v, asset, ticket) && !waits && !Has(v.enrichment, "skipped")
      && (v.vendor == "" || v.product == "" || v.cvss == None)
    case KLive(st) => IsMoving(v, asset, ticket) && station == Some(st)
  }

  /** Not failed, not through, and not left without an asset. */
  predicate IsMoving(v: Vulnerability, asset: bool, ticket: bool) {
    var station := StationOf(v, asset, ticket);
    !IsFailed(v) && station != None && (asset || station != Some(Match))
  }

  ghost function PlacesOf(k: Kpi, vulns: seq<VulnRow>, matches: seq<MatchRow>, tickets: seq<TicketRow>): set<nat> {
    set i: nat | i < |vulns| && CountedFor(k, vulns[i], matches, tickets)
  }

  lemma CountsOnTheTables(k: Kpi, row: VulnRow, matches: seq<MatchRow>, tickets: seq<TicketRow>)
    ensures Counts(k, ClassifiedRow(row, matches, tickets)) <==> CountedFor(k, row, matches, tickets)
  {
    var item := ClassifiedRow(row, matches, tickets);
    AnswerIsOnTheTables(row, matches, tickets);
    ClassifiedRowIsComputed(row, matches, tickets);
    ComputedIsConsistent([item]);
    assert Consistent([item][0].progress);
  }

  ghost function Chosen(sel: seq<bool>): set<nat> {
    set i: nat | i < |sel| && sel[i]
  }

  lemma ChosenOneMore(front: seq<bool>, last: bool)
    ensures |Chosen(front + [last])| == |Chosen(front)| + if last then 1 else 0
  {
    assert Chosen(front + [last]) == Chosen(front) + if last then {|front|} else {};
  }

  lemma {:induction false} TallyIsTheChosen(k: Kpi, items: seq<Classified>, sel: seq<bool>)
    requires |sel| == |items| && forall i | 0 <= i < |items| :: sel[i] <==> Counts(k, items[i])
    ensures Tally(items, k) == |Chosen(sel)|
  {
    if items == [] {
      assert Chosen(sel) == {};
    } else {
      var n := |items| - 1;
      TallyIsTheChosen(k, items[..n], sel[..n]);
      ChosenOneMore(sel[..n], sel[n]);
      assert sel == sel[..n] + [sel[n]];
      assert sel[n] <==> Counts(k, items[n]);
    }
  }

  lemma CountsAtItsPlace(k: Kpi, vulns: seq<VulnRow>, matches: seq<MatchRow>, tickets: seq<TicketRow>,
                         items: seq<Classified>, i: nat)
    requires AreClassified(items, vulns, matches, tickets) && i < |vulns|
    ensures Counts(k, items[i]) <==> i in PlacesOf(k, vulns, matches, tickets)
  {
    CountsOnTheTables(k, vulns[i], matches, tickets);
  }

  lemma ChosenPlaces(places: set<nat>, sel: seq<bool>)
    requires forall i | i in places :: i < |sel|
    requires forall i | 0 <= i < |sel| :: sel[i] <==> i in places
    ensures Chosen(sel) == places
  {
  }

  lemma TallyOnTheTables(k: Kpi, vulns: seq<VulnRow>, matches: seq<MatchRow>, tickets: seq<TicketRow>,
                         items: seq<Classified>)
    requires AreClassified(items, vulns, matches, tickets)
    ensures Tally(items, k) == |PlacesOf(k, vulns, matches, tickets)|
  {
    var places := PlacesOf(k, vulns, matches, tickets);
    var sel := seq(|items|, i requires 0 <= i < |items| => i in places);
    forall i | 0 <= i < |items| ensures sel[i] <==> Counts(k, items[i]) {
      CountsAtItsPlace(k, vulns, matches, tickets, items, i);
    }
    TallyIsTheChosen(k, items, sel);
    ChosenPlaces(places, sel);
  }

  function CounterOf(c: Counters, k: Kpi): nat {
    match k
    case KFailed => c.failed
    case KWaiting => c.waiting
    case KUnmatched => c.unmatched
    case KCompleted => c.completed
    case KInFlight => c.inflight
    case KExtracted => c.extracted
    case KEnriched => c.enriched
    case KMatched => c.matched
    case KMatchingLive => c.matchingLive
    case KActingLive => c.actingLive
    case KActioned => c.actioned
    case KAiExtract => c.aiExtract
    case KAiEnrich => c.aiEnrich
    case KAiMatch => c.aiMatch
    case KIncomplete => c.incomplete
    case KLive(st) => c.live.At(st)
  }

  lemma CounterIsItsTally(c: Counters, items: seq<Classified>, k: Kpi)
    requires CountsAll(c, items)
    ensures CounterOf(c, k) == Tally(items, k)
  {
  }

  /** Main result: every counter of the dashboard, end to end: the number of CVEs in the tables that meet its condition on
      the columns, the matches and the tickets. */
  lemma CountersOnTheTables(vulns: seq<VulnRow>, matches: seq<MatchRow>, tickets: seq<TicketRow>,
                            items: seq<Classified>, c: Counters, k: Kpi)
    requires AreClassified(items, vulns, matches, tickets) && CountsAll(c, items)
    ensures CounterOf(c, k) == |PlacesOf(k, vulns, matches, tickets)|
  {
    CounterIsItsTally(c, items, k);
    TallyOnTheTables(k, vulns, matches, tickets, items);
  }
}
