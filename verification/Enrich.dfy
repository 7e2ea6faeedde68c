/** Enrichment of one CVE (app/pipeline/step3_enrich.py): what a pass leaves behind, the waiting markers
    and the back-off between retries. */
module Enrich {
  import opened Records
  import opened Wrappers

  // ---------- what a pass works with ----------

  /** `nvd` and `epss` say whether the lookup is switched on, `ai` whether the description is rewritten. */
  datatype Settings = Settings(enabled: bool, nvd: bool, epss: bool, ai: bool, retrySeconds: int)

  /** Identity and scores as some source gives them; the empty string is a missing or placeholder name. */
  datatype Fields = Fields(vendor: string, product: string, cvss: Option<real>, epss: Option<real>)

  datatype Names = Names(vendor: string, product: string)

  datatype Lookup<T> = Found(value: T) | Missed(error: Option<string>)

  /** `Filled` names what the model returned and whether it filled any field besides the identity. */
  datatype AiAnswer = NoAnswer | Filled(identity: Names, others: bool)

  datatype Crash = Never | AtNvd | AtEpss | AtAi

  /** Everything foreign in one pass: ingested fields, names read from the advisory text before and after the NVD
      record, the two lookups, the model's answer, the clock, and where a call raises. */
  datatype Answers = Answers(
    ingested: Fields,
    derived: Names,
    nvd: Lookup<Fields>,
    derivedAfterNvd: Names,
    epss: Lookup<Option<real>>,
    ai: AiAnswer,
    clock: int,
    crash: Crash)

  /** A pass ends normally or raises; either way the row has been changed. */
  datatype Exit = Returned(row: Vulnerability) | Raised(row: Vulnerability)

  // ---------- the steps of a pass ----------

  function Pick(value: string, otherwise: string): string {
    if value != "" then value else otherwise
  }

  function PickScore(value: Option<real>, otherwise: Option<real>): Option<real> {
    if value.Some? then value else otherwise
  }

  /** `apply_ingested_fields`: a given field overwrites, a missing one does not. */
  function WithIngested(v: Vulnerability, f: Fields): Vulnerability {
    v.(vendor := Pick(f.vendor, v.vendor), product := Pick(f.product, v.product),
       cvss := PickScore(f.cvss, v.cvss), epss := PickScore(f.epss, v.epss))
  }

  /** `ensure_identity`, and the way AI answers fill names: only what is missing. */
  function WithNames(v: Vulnerability, n: Names): Vulnerability {
    v.(vendor := Pick(v.vendor, n.vendor), product := Pick(v.product, n.product))
  }

  /** The two pops of the enabled branch; the second one happens only when the first found nothing. */
  function Unskipped(blob: Blob): Blob {
    if "skipped" in blob && blob["skipped"] != Null then blob - {"skipped"}
    else if "skip_reason" in blob && blob["skip_reason"] != Null then blob - {"skipped", "skip_reason"}
    else blob
  }

  /** `_apply_nvd`: the score is overwritten even by a missing one. */
  function WithNvd(v: Vulnerability, nvd: Fields, derived: Names): Vulnerability {
    WithNames(v.(cvss := nvd.cvss, vendor := Pick(nvd.vendor, v.vendor), product := Pick(nvd.product, v.product)), derived)
      .(enrichment := v.enrichment["nvd" := Object])
  }

  function WithEpss(v: Vulnerability, score: Option<real>): Vulnerability {
    v.(epss := score, enrichment := v.enrichment["epss" := Object])
  }

  function WithAi(v: Vulnerability, ai: AiAnswer): Vulnerability {
    if ai.NoAnswer? then v
    else
      var named := WithNames(v, ai.identity);
      named.(aiEnrichment := v.aiEnrichment || ai.others || named != v,
             enrichment := v.enrichment["ai" := Object])
  }

  function AfterSource(v: Vulnerability, a: Answers): Vulnerability {
    WithNames(WithIngested(v, a.ingested), a.derived)
  }

  function NvdStep(v: Vulnerability, s: Settings, a: Answers): Vulnerability {
    if s.nvd && a.nvd.Found? then WithNvd(v, a.nvd.value, a.derivedAfterNvd) else v
  }

  function EpssStep(v: Vulnerability, s: Settings, a: Answers): Vulnerability {
    if s.epss && a.epss.Found? then WithEpss(v, a.epss.value) else v
  }

  function AiStep(v: Vulnerability, s: Settings, a: Answers): Vulnerability {
    if s.ai then WithAi(v, a.ai) else v
  }

  function AfterSkipMarks(v: Vulnerability, a: Answers): Vulnerability {
    AfterSource(v, a).(enrichment := Unskipped(v.enrichment))
  }

  function AfterNvd(v: Vulnerability, s: Settings, a: Answers): Vulnerability {
    NvdStep(AfterSkipMarks(v, a), s, a)
  }

  function AfterEpss(v: Vulnerability, s: Settings, a: Answers): Vulnerability {
    EpssStep(AfterNvd(v, s, a), s, a)
  }

  function AfterAi(v: Vulnerability, s: Settings, a: Answers): Vulnerability {
    AiStep(AfterEpss(v, s, a), s, a)
  }

  // ---------- gaps, waiting and the back-off ----------

  /** `enrichment_gaps`: what the enabled lookups still owe. */
  function Gaps(v: Vulnerability, s: Settings): seq<string> {
    if !s.enabled then []
    else
      (if s.nvd && v.vendor == "" then ["vendor"] else []) +
      (if s.nvd && v.product == "" then ["product"] else []) +
      (if s.nvd && v.cvss.None? then ["cvss"] else []) +
      (if s.epss && v.epss.None? then ["epss"] else [])
  }

  function Min(a: int, b: int): int { if a < b then a else b }

  function Max(a: int, b: int): int { if a > b then a else b }

  function PowerOfTwo(n: nat): nat {
    if n == 0 then 1 else 2 * PowerOfTwo(n - 1)
  }

  /** `_next_retry_at`, in seconds from now. */
  function Delay(attempts: int, baseSeconds: int): int {
    Min(Max(30, baseSeconds) * PowerOfTwo(Min(Max(attempts, 0), 5)), 1800)
  }

  function Attempts(blob: Blob): int {
    if "attempts" in blob && blob["attempts"].Num? then blob["attempts"].n else 0
  }

  predicate TimedOut(error: Option<string>) {
    error == Some("timeout") || error == Some("unreachable")
  }

  function ErrorText(error: Option<string>): Json {
    if error.Some? then Text(error.value) else Null
  }

  function LookupError<T>(on: bool, lookup: Lookup<T>): Option<string> {
    if on && lookup.Missed? then lookup.error else None
  }

  /** The first part of `intel_wait_message`. */
  function WaitKind(nvd: Option<string>, epss: Option<string>): string {
    if TimedOut(nvd) || TimedOut(epss) then "timeout" else "incomplete"
  }

  const WAITING_KEYS := ["waiting", "wait_reason", "wait_kind", "missing", "retry_at", "attempts", "last_attempt_at",
                         "nvd_error", "epss_error"]

  function Waiting(v: Vulnerability, s: Settings, a: Answers): Vulnerability {
    var attempts := Attempts(v.enrichment) + 1;
    var nvdError, epssError := LookupError(s.nvd, a.nvd), LookupError(s.epss, a.epss);
    ApplyStatus(v.(enrichment := v.enrichment[
      "waiting" := Flag(true)][
      "wait_kind" := Text(WaitKind(nvdError, epssError))][
      "wait_reason" := Object][
      "missing" := Json.Names(Gaps(v, s))][
      "retry_at" := Num(a.clock + Delay(attempts - 1, s.retrySeconds))][
      "attempts" := Num(attempts)][
      "last_attempt_at" := Num(a.clock)][
      "nvd_error" := ErrorText(nvdError)][
      "epss_error" := ErrorText(epssError)]), ENRICHED, true)
  }

  function KeySet(keys: seq<string>): set<string> {
    set k | k in keys
  }

  function Complete(v: Vulnerability): Vulnerability {
    ApplyStatus(v.(enrichment := v.enrichment - KeySet(WAITING_KEYS)), ENRICHED, false)
  }

  function Disabled(v: Vulnerability): Vulnerability {
    ApplyStatus(v.(enrichment := v.enrichment["skipped" := Flag(true)]["skip_reason" := Text("enrichment_disabled")]),
                ENRICHED, false)
  }

  /** The tail of an enabled pass. */
  function Conclude(v: Vulnerability, s: Settings, a: Answers): Vulnerability {
    if Gaps(v, s) != [] then Waiting(v, s, a) else Complete(v)
  }

  /** `enrich_cve`. */
  function EnrichPass(v: Vulnerability, s: Settings, a: Answers): Exit {
    if !s.enabled then Returned(Disabled(AfterSource(v, a)))
    else if s.nvd && a.crash.AtNvd? then Raised(AfterSkipMarks(v, a))
    else if s.epss && a.crash.AtEpss? then Raised(AfterNvd(v, s, a))
    else if s.ai && a.crash.AtAi? then Raised(AfterEpss(v, s, a))
    else Returned(Conclude(AfterAi(v, s, a), s, a))
  }

  // ---------- the row that a pass changes ----------

  class CveRow {
    const cveId: string
    var vendor: string
    var product: string
    var cvss: Option<real>
    var epss: Option<real>
    var status: PipelineStatus
    var pipelineStatus: string
    var enrichment: Blob
    var aiExtraction: bool
    var aiEnrichment: bool
    var aiMatching: bool

    function View(): Vulnerability
      reads this
    {
      Vulnerability(cveId, vendor, product, cvss, epss, status, pipelineStatus, enrichment, aiExtraction, aiEnrichment, aiMatching)
    }

    constructor (v: Vulnerability)
      ensures View() == v
    {
      cveId, vendor, product, cvss, epss := v.cveId, v.vendor, v.product, v.cvss, v.epss;
      status, pipelineStatus, enrichment := v.status, v.pipelineStatus, v.enrichment;
      aiExtraction, aiEnrichment, aiMatching := v.aiExtraction, v.aiEnrichment, v.aiMatching;
    }

    method SetStatus(to: PipelineStatus, waiting: bool)
      modifies this
      ensures View() == ApplyStatus(old(View()), to, waiting)
    {
      status := to;
      pipelineStatus := DashboardFor(to, waiting);
    }

    method ApplyIngestedFields(f: Fields)
      modifies this
      ensures View() == WithIngested(old(View()), f)
    {
      if f.vendor != "" { vendor := f.vendor; }
      if f.product != "" { product := f.product; }
      if f.cvss.Some? { cvss := f.cvss; }
      if f.epss.Some? { epss := f.epss; }
    }

    method EnsureIdentity(n: Names)
      modifies this
      ensures View() == WithNames(old(View()), n)
    {
      if vendor == "" { vendor := n.vendor; }
      if product == "" { product := n.product; }
    }

    method DropSkipMarks()
      modifies this
      ensures View() == old(View()).(enrichment := Unskipped(old(enrichment)))
    {
      if "skipped" in enrichment && enrichment["skipped"] != Null {
        enrichment := enrichment - {"skipped"};
      } else if "skip_reason" in enrichment && enrichment["skip_reason"] != Null {
        enrichment := enrichment - {"skipped", "skip_reason"};
      }
    }

    method ApplyNvd(nvd: Fields, derived: Names)
      modifies this
      ensures View() == WithNvd(old(View()), nvd, derived)
    {
      cvss := nvd.cvss;
      if nvd.vendor != "" { vendor := nvd.vendor; }
      if nvd.product != "" { product := nvd.product; }
      EnsureIdentity(derived);
      enrichment := enrichment["nvd" := Object];
    }

    method ApplyAi(ai: AiAnswer)
      modifies this
      ensures View() == WithAi(old(View()), ai)
    {
      if ai.Filled? {
        var hadVendor, hadProduct := vendor, product;
        EnsureIdentity(ai.identity);
        if ai.others || vendor != hadVendor || product != hadProduct {
          aiEnrichment := true;
        }
        enrichment := enrichment["ai" := Object];
      }
    }

    method MarkWaiting(s: Settings, a: Answers)
      modifies this
      ensures View() == Waiting(old(View()), s, a)
    {
      var needed := Gaps(View(), s);
      var attempts := Attempts(enrichment) + 1;
      var nvdError, epssError := LookupError(s.nvd, a.nvd), LookupError(s.epss, a.epss);
      var blob := enrichment["waiting" := Flag(true)]["wait_kind" := Text(WaitKind(nvdError, epssError))]["wait_reason" := Object];
      blob := blob["missing" := Json.Names(needed)]["retry_at" := Num(a.clock + Delay(attempts - 1, s.retrySeconds))];
      blob := blob["attempts" := Num(attempts)]["last_attempt_at" := Num(a.clock)];
      enrichment := blob["nvd_error" := ErrorText(nvdError)]["epss_error" := ErrorText(epssError)];
      SetStatus(ENRICHED, true);
    }

    method PopKeys(keys: seq<string>)
      modifies this
      ensures View() == old(View()).(enrichment := old(enrichment) - KeySet(keys))
    {
      var blob := enrichment;
      for i := 0 to |keys|
        invariant View() == old(View())
        invariant blob == enrichment - KeySet(keys[..i])
      {
        assert KeySet(keys[..i + 1]) == KeySet(keys[..i]) + {keys[i]} by {
          assert keys[..i + 1] == keys[..i] + [keys[i]];
        }
        blob := blob - {keys[i]};
      }
      assert keys[..|keys|] == keys;
      enrichment := blob;
    }

    method LookUpNvd(s: Settings, a: Answers)
      modifies this
      ensures View() == NvdStep(old(View()), s, a)
    {
      if s.nvd && a.nvd.Found? { ApplyNvd(a.nvd.value, a.derivedAfterNvd); }
    }

    method LookUpEpss(s: Settings, a: Answers)
      modifies this
      ensures View() == EpssStep(old(View()), s, a)
    {
      if s.epss && a.epss.Found? {
        epss := a.epss.value;
        enrichment := enrichment["epss" := Object];
      }
    }

    method AskAi(s: Settings, a: Answers)
      modifies this
      ensures View() == AiStep(old(View()), s, a)
    {
      if s.ai { ApplyAi(a.ai); }
    }

    method Finish(s: Settings, a: Answers)
      modifies this
      ensures View() == Conclude(old(View()), s, a)
    {
      if Gaps(View(), s) != [] {
        MarkWaiting(s, a);
      } else {
        PopKeys(WAITING_KEYS);
        SetStatus(ENRICHED, false);
      }
    }

    method SkipEnrichment()
      modifies this
      ensures View() == Disabled(old(View()))
    {
      enrichment := enrichment["skipped" := Flag(true)]["skip_reason" := Text("enrichment_disabled")];
      SetStatus(ENRICHED, false);
    }

    /** The whole pass, against its specification. */
    method EnrichCve(s: Settings, a: Answers) returns (raised: bool)
      modifies this
      ensures EnrichPass(old(View()), s, a) == if raised then Raised(View()) else Returned(View())
    {
      ApplyIngestedFields(a.ingested);
      EnsureIdentity(a.derived);
      if !s.enabled {
        SkipEnrichment();
        return false;
      }
      DropSkipMarks();
      if s.nvd && a.crash.AtNvd? { return true; }
      LookUpNvd(s, a);
      if s.epss && a.crash.AtEpss? { return true; }
      LookUpEpss(s, a);
      if s.ai && a.crash.AtAi? { return true; }
      AskAi(s, a);
      Finish(s, a);
      raised := false;
    }
  }

  // ---------- the markers agree ----------

  lemma WaitingKeys(v: Vulnerability, s: Settings, a: Answers)
    ensures var blob := Waiting(v, s, a).enrichment;
            && Has(blob, "waiting")
            && "attempts" in blob && blob["attempts"] == Num(Attempts(v.enrichment) + 1)
            && "retry_at" in blob && blob["retry_at"] == Num(a.clock + Delay(Attempts(v.enrichment), s.retrySeconds))
            && "missing" in blob && blob["missing"] == Json.Names(Gaps(v, s))
  {
  }

  lemma CompleteKeys(v: Vulnerability)
    ensures var blob := Complete(v).enrichment;
            && (forall k | k in WAITING_KEYS :: k !in blob)
            && (forall k | k !in WAITING_KEYS :: (k in blob <==> k in v.enrichment) && (k in blob ==> blob[k] == v.enrichment[k]))
  {
  }

  /** Every way a pass can return writes ENRICHED to both status columns. */
  lemma ReturnsEnriched(v: Vulnerability, s: Settings, a: Answers)
    requires EnrichPass(v, s, a).Returned?
    ensures var row := EnrichPass(v, s, a).row;
            row == ApplyStatus(row, ENRICHED, false) || row == ApplyStatus(row, ENRICHED, true)
  {
    if s.enabled {
      ConcludesEnriched(AfterAi(v, s, a), s, a);
    } else {
      DisablesEnriched(AfterSource(v, a));
    }
  }

  lemma ConcludesEnriched(v: Vulnerability, s: Settings, a: Answers)
    ensures Conclude(v, s, a) == ApplyStatus(Conclude(v, s, a), ENRICHED, Gaps(v, s) != [])
  {
  }

  lemma DisablesEnriched(v: Vulnerability)
    ensures Disabled(v) == ApplyStatus(Disabled(v), ENRICHED, false)
  {
  }

  lemma WaitingKeyIsListed()
    ensures "waiting" in WAITING_KEYS && "attempts" in WAITING_KEYS
  {
    assert WAITING_KEYS[0] == "waiting" && WAITING_KEYS[5] == "attempts";
  }

  /** Main result: after every enabled pass that returns, the blob's flag, the status column and the open gaps say the
      same, the open gaps are those of the row as stored, and a complete pass leaves none of the nine keys. */
  lemma MarkersAgree(v: Vulnerability, s: Settings, a: Answers)
    requires s.enabled && EnrichPass(v, s, a).Returned?
    ensures var row := EnrichPass(v, s, a).row;
            && (Has(row.enrichment, "waiting") <==> Gaps(row, s) != [])
            && (row.pipelineStatus == WAITING_ENRICHMENT <==> Gaps(row, s) != [])
            && (Gaps(row, s) == [] ==> forall k | k in WAITING_KEYS :: k !in row.enrichment)
            && (Gaps(row, s) != [] ==> "missing" in row.enrichment && row.enrichment["missing"] == Json.Names(Gaps(row, s)))
            && row.status == ENRICHED
  {
    var before := AfterAi(v, s, a);
    WaitingKeys(before, s, a);
    CompleteKeys(before);
    WaitingKeyIsListed();
  }

  /** So later steps that ask either marker get the same answer: the CVE waits iff a lookup still owes something. */
  lemma WaitsIffALookupOwes(v: Vulnerability, s: Settings, a: Answers)
    requires s.enabled && EnrichPass(v, s, a).Returned?
    ensures var row := EnrichPass(v, s, a).row;
            IsEnrichmentWaiting(row) <==>
            (s.nvd && (row.vendor == "" || row.product == "" || row.cvss.None?)) || (s.epss && row.epss.None?)
  {
    MarkersAgree(v, s, a);
  }

  // ---------- what the lookups do to the gaps ----------

  /** A record without a score makes the CVE wait, whatever score the feed or an earlier pass gave. */
  lemma UnscoredRecordWaits(v: Vulnerability, s: Settings, a: Answers)
    requires s.enabled && s.nvd && a.nvd.Found? && a.nvd.value.cvss.None? && EnrichPass(v, s, a).Returned?
    ensures IsEnrichmentWaiting(EnrichPass(v, s, a).row)
  {
    MarkersAgree(v, s, a);
  }

  lemma SilentLookupsKeepFields(v: Vulnerability, s: Settings, a: Answers)
    requires a.nvd.Missed? && a.epss.Missed?
    ensures var row := AfterAi(v, s, a);
            && (v.vendor != "" ==> row.vendor != "") && (v.product != "" ==> row.product != "")
            && (v.cvss.Some? ==> row.cvss.Some?) && (v.epss.Some? ==> row.epss.Some?)
  {
  }

  /** Lookups that do not answer never undo what is known: a row without gaps stays without gaps, and the pass
      completes. */
  lemma SilentLookupsKeepACompleteRow(v: Vulnerability, s: Settings, a: Answers)
    requires s.enabled && Gaps(v, s) == [] && a.nvd.Missed? && a.epss.Missed? && EnrichPass(v, s, a).Returned?
    ensures !IsEnrichmentWaiting(EnrichPass(v, s, a).row)
  {
    var row := AfterAi(v, s, a);
    NoGaps(v, s);
    SilentLookupsKeepFields(v, s, a);
    NoGaps(row, s);
    CompleteDoesNotWait(row);
  }

  lemma CompleteDoesNotWait(v: Vulnerability)
    ensures !IsEnrichmentWaiting(Complete(v))
  {
    CompleteKeys(v);
    WaitingKeyIsListed();
    assert DashboardFor(ENRICHED, false)[0] != WAITING_ENRICHMENT[0];
  }

  lemma NoGaps(v: Vulnerability, s: Settings)
    ensures Gaps(v, s) == [] <==>
            !s.enabled || ((s.nvd ==> v.vendor != "" && v.product != "" && v.cvss.Some?) && (s.epss ==> v.epss.Some?))
  {
  }

  predicate FoundInNvd(s: Settings, a: Answers) {
    s.enabled && s.nvd && a.nvd.Found?
  }

  predicate Suggests(s: Settings, a: Answers) {
    s.enabled && s.ai && a.ai.Filled?
  }

  ghost predicate NoneBefore(names: seq<string>, i: nat)
    requires i <= |names|
  {
    forall j | 0 <= j < i :: names[j] == ""
  }

  /** The first name that is given, or none. */
  ghost predicate IsFirstGiven(name: string, names: seq<string>) {
    && (forall i: nat | i < |names| && names[i] != "" && NoneBefore(names, i) :: name == names[i])
    && (NoneBefore(names, |names|) ==> name == "")
  }

  lemma GivenFirst(name: string, names: seq<string>)
    requires name != ""
    ensures IsFirstGiven(name, [name] + names)
  {
    var all := [name] + names;
    assert all[0] == name && !NoneBefore(all, |all|);
    assert forall i: nat | 0 < i <= |all| :: !NoneBefore(all, i);
  }

  lemma GivenLater(rest: string, names: seq<string>)
    requires IsFirstGiven(rest, names)
    ensures IsFirstGiven(rest, [""] + names)
  {
    var all := [""] + names;
    forall i: nat | i < |all| && all[i] != "" && NoneBefore(all, i) ensures rest == all[i] {
      NoneBeforeShifts(names, i - 1);
    }
    if NoneBefore(all, |all|) {
      NoneBeforeShifts(names, |names|);
    }
  }

  lemma NoneBeforeShifts(names: seq<string>, i: nat)
    requires i <= |names| && NoneBefore([""] + names, i + 1)
    ensures NoneBefore(names, i)
  {
    forall j | 0 <= j < i ensures names[j] == "" {
      assert ([""] + names)[j + 1] == names[j];
    }
  }

  lemma PickIsFirstGiven(name: string, rest: string, names: seq<string>)
    requires IsFirstGiven(rest, names)
    ensures IsFirstGiven(Pick(name, rest), [name] + names)
  {
    if name != "" {
      GivenFirst(name, names);
    } else {
      GivenLater(rest, names);
    }
  }

  function PickAll(names: seq<string>): string {
    if names == [] then "" else Pick(names[0], PickAll(names[1..]))
  }

  lemma {:induction false} PickAllIsFirstGiven(names: seq<string>)
    ensures IsFirstGiven(PickAll(names), names)
  {
    if names != [] {
      PickAllIsFirstGiven(names[1..]);
      PickIsFirstGiven(names[0], PickAll(names[1..]), names[1..]);
      assert [names[0]] + names[1..] == names;
    }
  }

  lemma PickAllCons(name: string, names: seq<string>)
    ensures PickAll([name] + names) == Pick(name, PickAll(names))
  {
    assert ([name] + names)[1..] == names;
  }

  lemma {:induction false} PickAllOfBoth(a: seq<string>, b: seq<string>)
    ensures PickAll(a + b) == Pick(PickAll(a), PickAll(b))
  {
    if a == [] {
      assert a + b == b;
    } else {
      assert (a + b)[1..] == a[1..] + b;
      PickAllOfBoth(a[1..], b);
    }
  }

  lemma {:induction false} SomeFirst(names: seq<string>, n: nat)
    requires n <= |names|
    ensures NoneBefore(names, n) || exists i: nat :: i < n && names[i] != "" && NoneBefore(names, i)
  {
    if n > 0 {
      SomeFirst(names, n - 1);
    }
  }

  lemma FirstGivenIsUnique(name: string, names: seq<string>)
    requires IsFirstGiven(name, names)
    ensures name == PickAll(names)
  {
    PickAllIsFirstGiven(names);
    SomeFirst(names, |names|);
  }

  lemma OneSourceMore(name: string, front: seq<string>, a: string, b: string, back: seq<string>, last: string)
    requires IsFirstGiven(name, front + [Pick(a, b)] + back)
    ensures IsFirstGiven(Pick(name, last), front + [a, b] + back + [last])
  {
    FirstGivenIsUnique(name, front + [Pick(a, b)] + back);
    PickAllOfBoth(front + [Pick(a, b)], back);
    PickAllOfBoth(front, [Pick(a, b)]);
    PickAllOfBoth(front + [a, b] + back, [last]);
    PickAllOfBoth(front + [a, b], back);
    PickAllOfBoth(front, [a, b]);
    assert [a, b][1..] == [b];
    PickAllIsFirstGiven(front + [a, b] + back + [last]);
  }

  /** A source that is itself the first of two can be listed as the two, and one more source can be put at the end. */
  lemma TwoSourcesMore(name: string, n: seq<string>, third: string)
    requires |n| == 8 && third == Pick(n[2], n[3])
    requires IsFirstGiven(name, [n[0], n[1], third, n[4], n[5], n[6]])
    ensures IsFirstGiven(Pick(name, n[7]), n)
  {
    var front, back := [n[0], n[1]], [n[4], n[5], n[6]];
    assert [n[0], n[1], third, n[4], n[5], n[6]] == front + [third] + back;
    OneSourceMore(name, front, n[2], n[3], back, n[7]);
    assert n == front + [n[2], n[3]] + back + [n[7]];
  }

  lemma ChainIsFirstGiven(a: string, b: string, c: string, d: string, e: string, f: string)
    ensures IsFirstGiven(Pick(a, Pick(b, Pick(c, Pick(d, Pick(e, f))))), [a, b, c, d, e, f])
  {
    var n5 := [f] + [];
    var n4 := [e] + n5;
    var n3 := [d] + n4;
    var n2 := [c] + n3;
    var n1 := [b] + n2;
    var n0 := [a] + n1;
    PickAllCons(f, []);
    PickAllCons(e, n5);
    PickAllCons(d, n4);
    PickAllCons(c, n3);
    PickAllCons(b, n2);
    PickAllCons(a, n1);
    PickAllIsFirstGiven(n0);
    assert PickAll(n5) == f;
    assert n0 == [a, b, c, d, e, f];
  }

  lemma ConcludeKeepsFields(v: Vulnerability, s: Settings, a: Answers)
    ensures var row := Conclude(v, s, a);
            && row.vendor == v.vendor && row.product == v.product && row.cvss == v.cvss && row.epss == v.epss
            && row.aiEnrichment == v.aiEnrichment && row.aiExtraction == v.aiExtraction && row.aiMatching == v.aiMatching
            && row.cveId == v.cveId
  {
  }

  lemma LaterStepsKeepFields(v: Vulnerability, s: Settings, a: Answers)
    ensures EpssStep(v, s, a) == v.(epss := EpssStep(v, s, a).epss, enrichment := EpssStep(v, s, a).enrichment)
    ensures AiStep(v, s, a).cvss == v.cvss && AiStep(v, s, a).epss == v.epss
  {
  }

  lemma NvdScores(v: Vulnerability, s: Settings, a: Answers)
    requires s.enabled
    ensures AfterNvd(v, s, a).cvss ==
            if FoundInNvd(s, a) then a.nvd.value.cvss else if a.ingested.cvss.Some? then a.ingested.cvss else v.cvss
    ensures AfterNvd(v, s, a).epss == if a.ingested.epss.Some? then a.ingested.epss else v.epss
  {
  }

  lemma NvdNames(v: Vulnerability, s: Settings, a: Answers)
    requires s.enabled
    ensures var row, found := AfterNvd(v, s, a), FoundInNvd(s, a);
            && row.vendor == Pick(if found then a.nvd.value.vendor else "",
                                  Pick(Pick(a.ingested.vendor, Pick(v.vendor, a.derived.vendor)),
                                       if found then a.derivedAfterNvd.vendor else ""))
            && row.product == Pick(if found then a.nvd.value.product else "",
                                   Pick(Pick(a.ingested.product, Pick(v.product, a.derived.product)),
                                        if found then a.derivedAfterNvd.product else ""))
  {
  }

  lemma AiNames(v: Vulnerability, s: Settings, a: Answers)
    requires s.enabled
    ensures AiStep(v, s, a).vendor == Pick(v.vendor, if Suggests(s, a) then a.ai.identity.vendor else "")
    ensures AiStep(v, s, a).product == Pick(v.product, if Suggests(s, a) then a.ai.identity.product else "")
  {
  }

  lemma PickRegroups(n: string, k1: string, k2: string, k3: string, t: string, g: string)
    ensures Pick(Pick(n, Pick(Pick(k1, Pick(k2, k3)), t)), g) == Pick(n, Pick(k1, Pick(k2, Pick(k3, Pick(t, g)))))
  {
  }

  /** Where the names can come from, in the order in which they count: NVD, the delivery, the stored row, the advisory text
      before and after the record, and the model. */
  function VendorSources(v: Vulnerability, s: Settings, a: Answers): seq<string> {
    [if FoundInNvd(s, a) then a.nvd.value.vendor else "", a.ingested.vendor, v.vendor, a.derived.vendor,
     if FoundInNvd(s, a) then a.derivedAfterNvd.vendor else "", if Suggests(s, a) then a.ai.identity.vendor else ""]
  }

  function ProductSources(v: Vulnerability, s: Settings, a: Answers): seq<string> {
    [if FoundInNvd(s, a) then a.nvd.value.product else "", a.ingested.product, v.product, a.derived.product,
     if FoundInNvd(s, a) then a.derivedAfterNvd.product else "", if Suggests(s, a) then a.ai.identity.product else ""]
  }

  lemma VendorOfAPass(v: Vulnerability, s: Settings, a: Answers)
    requires s.enabled
    ensures IsFirstGiven(AfterAi(v, s, a).vendor, VendorSources(v, s, a))
  {
    NvdNames(v, s, a);
    LaterStepsKeepFields(AfterNvd(v, s, a), s, a);
    AiNames(AfterEpss(v, s, a), s, a);
    var n := VendorSources(v, s, a);
    PickRegroups(n[0], n[1], n[2], n[3], n[4], n[5]);
    ChainIsFirstGiven(n[0], n[1], n[2], n[3], n[4], n[5]);
  }

  lemma ProductOfAPass(v: Vulnerability, s: Settings, a: Answers)
    requires s.enabled
    ensures IsFirstGiven(AfterAi(v, s, a).product, ProductSources(v, s, a))
  {
    NvdNames(v, s, a);
    LaterStepsKeepFields(AfterNvd(v, s, a), s, a);
    AiNames(AfterEpss(v, s, a), s, a);
    var n := ProductSources(v, s, a);
    PickRegroups(n[0], n[1], n[2], n[3], n[4], n[5]);
    ChainIsFirstGiven(n[0], n[1], n[2], n[3], n[4], n[5]);
  }

  lemma NamesWithoutLookups(v: Vulnerability, s: Settings, a: Answers)
    requires !s.enabled
    ensures IsFirstGiven(AfterSource(v, a).vendor, VendorSources(v, s, a))
    ensures IsFirstGiven(AfterSource(v, a).product, ProductSources(v, s, a))
  {
    ChainIsFirstGiven("", a.ingested.vendor, v.vendor, a.derived.vendor, "", "");
    ChainIsFirstGiven("", a.ingested.product, v.product, a.derived.product, "", "");
  }

  /** Main result: vendor and product after every pass that returns are the first name given by NVD, the delivery, the
      stored row, the advisory text and the model, in this order. */
  lemma NamesHavePrecedence(v: Vulnerability, s: Settings, a: Answers)
    requires EnrichPass(v, s, a).Returned?
    ensures IsFirstGiven(EnrichPass(v, s, a).row.vendor, VendorSources(v, s, a))
    ensures IsFirstGiven(EnrichPass(v, s, a).row.product, ProductSources(v, s, a))
  {
    if s.enabled {
      ConcludeKeepsFields(AfterAi(v, s, a), s, a);
      VendorOfAPass(v, s, a);
      ProductOfAPass(v, s, a);
    } else {
      NamesWithoutLookups(v, s, a);
    }
  }

  /** Where the scores come from: a found record decides alone, otherwise the delivery before the stored row. */
  lemma ScoresHavePrecedence(v: Vulnerability, s: Settings, a: Answers)
    requires EnrichPass(v, s, a).Returned?
    ensures EnrichPass(v, s, a).row.cvss ==
            if FoundInNvd(s, a) then a.nvd.value.cvss else if a.ingested.cvss.Some? then a.ingested.cvss else v.cvss
    ensures EnrichPass(v, s, a).row.epss ==
            if s.enabled && s.epss && a.epss.Found? then a.epss.value
            else if a.ingested.epss.Some? then a.ingested.epss else v.epss
  {
    if s.enabled {
      ConcludeKeepsFields(AfterAi(v, s, a), s, a);
      LaterStepsKeepFields(AfterEpss(v, s, a), s, a);
      LaterStepsKeepFields(AfterNvd(v, s, a), s, a);
      NvdScores(v, s, a);
    }
  }

  /** The columns that no lookup writes. */
  ghost predicate SameMarks(row: Vulnerability, v: Vulnerability) {
    && row.status == v.status && row.pipelineStatus == v.pipelineStatus && row.cveId == v.cveId
    && row.aiEnrichment == v.aiEnrichment && row.aiExtraction == v.aiExtraction && row.aiMatching == v.aiMatching
  }

  lemma RaisedNames(v: Vulnerability, s: Settings, a: Answers)
    requires EnrichPass(v, s, a).Raised?
    ensures var row, found := EnrichPass(v, s, a).row, FoundInNvd(s, a) && !a.crash.AtNvd?;
            && row.vendor == Pick(if found then a.nvd.value.vendor else "",
                                  Pick(Pick(a.ingested.vendor, Pick(v.vendor, a.derived.vendor)),
                                       if found then a.derivedAfterNvd.vendor else ""))
            && row.product == Pick(if found then a.nvd.value.product else "",
                                   Pick(Pick(a.ingested.product, Pick(v.product, a.derived.product)),
                                        if found then a.derivedAfterNvd.product else ""))
  {
    LaterStepsKeepFields(AfterNvd(v, s, a), s, a);
  }

  /** A pass that raises leaves what the steps before brought: the record counts iff its lookup came back, the EPSS score iff
      the model was the one to fail, and the statuses and the marks of AI use are those from before. */
  lemma RaisedPassKeepsWhatItFound(v: Vulnerability, s: Settings, a: Answers)
    requires EnrichPass(v, s, a).Raised?
    ensures var row, found := EnrichPass(v, s, a).row, FoundInNvd(s, a) && !a.crash.AtNvd?;
            && IsFirstGiven(row.vendor, [if found then a.nvd.value.vendor else "", a.ingested.vendor, v.vendor,
                                         a.derived.vendor, if found then a.derivedAfterNvd.vendor else "", ""])
            && IsFirstGiven(row.product, [if found then a.nvd.value.product else "", a.ingested.product, v.product,
                                          a.derived.product, if found then a.derivedAfterNvd.product else "", ""])
            && row.cvss == (if found then a.nvd.value.cvss else if a.ingested.cvss.Some? then a.ingested.cvss else v.cvss)
            && row.epss == (if a.crash.AtAi? && s.epss && a.epss.Found? then a.epss.value
                            else if a.ingested.epss.Some? then a.ingested.epss else v.epss)
            && SameMarks(row, v)
  {
    RaisedNames(v, s, a);
    RaisedColumns(v, s, a);
    var found := FoundInNvd(s, a) && !a.crash.AtNvd?;
    var n0, n4 := if found then a.nvd.value.vendor else "", if found then a.derivedAfterNvd.vendor else "";
    var m0, m4 := if found then a.nvd.value.product else "", if found then a.derivedAfterNvd.product else "";
    PickRegroups(n0, a.ingested.vendor, v.vendor, a.derived.vendor, n4, "");
    PickRegroups(m0, a.ingested.product, v.product, a.derived.product, m4, "");
    ChainIsFirstGiven(n0, a.ingested.vendor, v.vendor, a.derived.vendor, n4, "");
    ChainIsFirstGiven(m0, a.ingested.product, v.product, a.derived.product, m4, "");
  }

  lemma NvdKeepsMarks(v: Vulnerability, s: Settings, a: Answers)
    ensures SameMarks(AfterSkipMarks(v, a), v) && SameMarks(AfterNvd(v, s, a), v)
  {
  }

  lemma EpssScores(v: Vulnerability, s: Settings, a: Answers)
    ensures EpssStep(v, s, a).cvss == v.cvss && EpssStep(v, s, a).epss == if s.epss && a.epss.Found? then a.epss.value else v.epss
    ensures SameMarks(EpssStep(v, s, a), v)
  {
  }

  lemma RaisedColumns(v: Vulnerability, s: Settings, a: Answers)
    requires EnrichPass(v, s, a).Raised?
    ensures var row, found := EnrichPass(v, s, a).row, FoundInNvd(s, a) && !a.crash.AtNvd?;
            && row.cvss == (if found then a.nvd.value.cvss else if a.ingested.cvss.Some? then a.ingested.cvss else v.cvss)
            && row.epss == (if a.crash.AtAi? && s.epss && a.epss.Found? then a.epss.value
                            else if a.ingested.epss.Some? then a.ingested.epss else v.epss)
            && SameMarks(row, v)
  {
    NvdKeepsMarks(v, s, a);
    if !(s.nvd && a.crash.AtNvd?) {
      NvdScores(v, s, a);
      EpssScores(AfterNvd(v, s, a), s, a);
    }
  }

  // ---------- what a pass notes down ----------

  lemma AiMark(v: Vulnerability, s: Settings, a: Answers)
    requires s.enabled
    ensures AiStep(v, s, a).aiEnrichment <==>
            v.aiEnrichment || (Suggests(s, a) && (a.ai.others || AiStep(v, s, a).vendor != v.vendor || AiStep(v, s, a).product != v.product))
    ensures AiStep(v, s, a).aiExtraction == v.aiExtraction && AiStep(v, s, a).aiMatching == v.aiMatching
  {
  }

  lemma MarksBeforeAi(v: Vulnerability, s: Settings, a: Answers)
    ensures AfterEpss(v, s, a).aiEnrichment == v.aiEnrichment && AfterEpss(v, s, a).aiExtraction == v.aiExtraction
    ensures AfterEpss(v, s, a).aiMatching == v.aiMatching
  {
  }

  /** The row says that AI was used for enrichment iff it was said before or the model filled a field in this pass; the
      marks of the other stages are left alone. */
  lemma AiUseIsMarkedIffItFilled(v: Vulnerability, s: Settings, a: Answers)
    requires EnrichPass(v, s, a).Returned?
    ensures var row, before := EnrichPass(v, s, a).row, AfterEpss(v, s, a);
            && row.aiEnrichment == (v.aiEnrichment || (Suggests(s, a) &&
                 (a.ai.others || row.vendor != before.vendor || row.product != before.product)))
            && row.aiExtraction == v.aiExtraction && row.aiMatching == v.aiMatching
  {
    if s.enabled {
      ConcludeKeepsFields(AfterAi(v, s, a), s, a);
      AiMark(AfterEpss(v, s, a), s, a);
      MarksBeforeAi(v, s, a);
    }
  }

  lemma LookupKeys(v: Vulnerability, s: Settings, a: Answers)
    ensures "nvd" in AfterAi(v, s, a).enrichment <==> "nvd" in v.enrichment || (s.nvd && a.nvd.Found?)
    ensures "epss" in AfterAi(v, s, a).enrichment <==> "epss" in v.enrichment || (s.epss && a.epss.Found?)
  {
    assert "nvd" in Unskipped(v.enrichment) <==> "nvd" in v.enrichment;
    assert "epss" in Unskipped(v.enrichment) <==> "epss" in v.enrichment;
    assert "nvd" in AfterNvd(v, s, a).enrichment <==> "nvd" in v.enrichment || (s.nvd && a.nvd.Found?);
  }

  lemma ConcludeKeepsKeys(v: Vulnerability, s: Settings, a: Answers, key: string)
    requires key !in WAITING_KEYS
    ensures key in Conclude(v, s, a).enrichment <==> key in v.enrichment
  {
    CompleteKeys(v);
    assert WAITING_KEYS[0] == "waiting" && WAITING_KEYS[1] == "wait_reason" && WAITING_KEYS[2] == "wait_kind";
    assert WAITING_KEYS[3] == "missing" && WAITING_KEYS[4] == "retry_at" && WAITING_KEYS[5] == "attempts";
    assert WAITING_KEYS[6] == "last_attempt_at" && WAITING_KEYS[7] == "nvd_error" && WAITING_KEYS[8] == "epss_error";
  }

  /** The blob shows each lookup that found the CVE in this or an earlier pass. */
  lemma FoundLookupsAreKept(v: Vulnerability, s: Settings, a: Answers)
    requires s.enabled && EnrichPass(v, s, a).Returned?
    ensures "nvd" in EnrichPass(v, s, a).row.enrichment <==> "nvd" in v.enrichment || (s.nvd && a.nvd.Found?)
    ensures "epss" in EnrichPass(v, s, a).row.enrichment <==> "epss" in v.enrichment || (s.epss && a.epss.Found?)
  {
    LookupKeys(v, s, a);
    assert forall k | k in WAITING_KEYS :: |k| > 4;
    ConcludeKeepsKeys(AfterAi(v, s, a), s, a, "nvd");
    ConcludeKeepsKeys(AfterAi(v, s, a), s, a, "epss");
  }

  lemma WaitingReasonKeys(v: Vulnerability, s: Settings, a: Answers)
    ensures var blob := Waiting(v, s, a).enrichment;
            && "wait_kind" in blob && blob["wait_kind"] == Text(WaitKind(LookupError(s.nvd, a.nvd), LookupError(s.epss, a.epss)))
            && "last_attempt_at" in blob && blob["last_attempt_at"] == Num(a.clock)
  {
  }

  /** A lookup that is on did not answer in time. */
  predicate LateAnswer<T>(on: bool, lookup: Lookup<T>) {
    on && lookup.Missed? && (lookup.error == Some("timeout") || lookup.error == Some("unreachable"))
  }

  /** A waiting row tells why: "timeout" iff an enabled lookup did not answer in time, and never a failure. */
  lemma WaitingRowTellsWhy(v: Vulnerability, s: Settings, a: Answers)
    requires s.enabled && EnrichPass(v, s, a).Returned? && IsEnrichmentWaiting(EnrichPass(v, s, a).row)
    ensures var row, blob := EnrichPass(v, s, a).row, EnrichPass(v, s, a).row.enrichment;
            && row.status == ENRICHED
            && "wait_kind" in blob
            && blob["wait_kind"] == Text(if LateAnswer(s.nvd, a.nvd) || LateAnswer(s.epss, a.epss) then "timeout" else "incomplete")
            && "last_attempt_at" in blob && blob["last_attempt_at"] == Num(a.clock)
  {
    WaitsOnlyInTheWaitingBranch(v, s, a);
    WaitingReasonKeys(AfterAi(v, s, a), s, a);
  }

  lemma WaitsOnlyInTheWaitingBranch(v: Vulnerability, s: Settings, a: Answers)
    requires s.enabled && EnrichPass(v, s, a).Returned? && IsEnrichmentWaiting(EnrichPass(v, s, a).row)
    ensures EnrichPass(v, s, a).row == Waiting(AfterAi(v, s, a), s, a)
  {
    CompleteDoesNotWait(AfterAi(v, s, a));
  }

  /** And `missing` names exactly the fields that enabled lookups still owe. */
  lemma WaitingRowNamesWhatIsMissing(v: Vulnerability, s: Settings, a: Answers)
    requires s.enabled && EnrichPass(v, s, a).Returned? && IsEnrichmentWaiting(EnrichPass(v, s, a).row)
    ensures var row, blob := EnrichPass(v, s, a).row, EnrichPass(v, s, a).row.enrichment;
            && "missing" in blob && blob["missing"].Names?
            && var names := blob["missing"].names;
               && ("vendor" in names <==> s.nvd && row.vendor == "") && ("product" in names <==> s.nvd && row.product == "")
               && ("cvss" in names <==> s.nvd && row.cvss.None?) && ("epss" in names <==> s.epss && row.epss.None?)
  {
    MarkersAgree(v, s, a);
    GapNames(EnrichPass(v, s, a).row, s);
  }

  /** What the lookups answered is kept: the error of each enabled lookup that found nothing, and null otherwise. */
  lemma WaitingRowKeepsTheErrors(v: Vulnerability, s: Settings, a: Answers)
    requires s.enabled && EnrichPass(v, s, a).Returned? && IsEnrichmentWaiting(EnrichPass(v, s, a).row)
    ensures var blob := EnrichPass(v, s, a).row.enrichment;
            && "nvd_error" in blob && "epss_error" in blob
            && blob["nvd_error"] == (if s.nvd && a.nvd.Missed? && a.nvd.error.Some? then Text(a.nvd.error.value) else Null)
            && blob["epss_error"] == (if s.epss && a.epss.Missed? && a.epss.error.Some? then Text(a.epss.error.value) else Null)
  {
    WaitsOnlyInTheWaitingBranch(v, s, a);
  }

  lemma GapNames(v: Vulnerability, s: Settings)
    requires s.enabled
    ensures var names := Gaps(v, s);
            && ("vendor" in names <==> s.nvd && v.vendor == "") && ("product" in names <==> s.nvd && v.product == "")
            && ("cvss" in names <==> s.nvd && v.cvss.None?) && ("epss" in names <==> s.epss && v.epss.None?)
  {
  }

  // ---------- the disabled branch ----------

  /** The disabled branch does not clear `waiting`: the pipeline goes on to matching iff the flag was not set before. */
  lemma DisabledPassWaitsIffItWaited(v: Vulnerability, s: Settings, a: Answers)
    requires !s.enabled
    ensures EnrichPass(v, s, a).Returned?
    ensures IsEnrichmentWaiting(EnrichPass(v, s, a).row) <==> Has(v.enrichment, "waiting")
  {
    var row := EnrichPass(v, s, a).row;
    assert row.pipelineStatus == "enriching" && row.pipelineStatus[0] != WAITING_ENRICHMENT[0];
  }

  lemma LookupsKeepOtherKeys(v: Vulnerability, s: Settings, a: Answers, key: string)
    requires key != "nvd" && key != "epss" && key != "ai"
    ensures (key in AfterAi(v, s, a).enrichment) == (key in Unskipped(v.enrichment))
    ensures key in Unskipped(v.enrichment) ==> AfterAi(v, s, a).enrichment[key] == Unskipped(v.enrichment)[key]
  {
  }

  /** The two pops are one short-circuited condition, so `skip_reason` outlives an enabled pass exactly when a `skipped`
      mark was there to stop the second pop, or the reason itself was null. */
  lemma SkipReasonSurvivesIff(v: Vulnerability, s: Settings, a: Answers)
    requires s.enabled && EnrichPass(v, s, a).Returned?
    ensures "skip_reason" in EnrichPass(v, s, a).row.enrichment <==>
            "skip_reason" in v.enrichment &&
            (("skipped" in v.enrichment && v.enrichment["skipped"] != Null) || v.enrichment["skip_reason"] == Null)
  {
    LookupsKeepOtherKeys(v, s, a, "skip_reason");
    SkipReasonIsKept(AfterAi(v, s, a), s, a);
    SkipReasonAfterThePops(v.enrichment);
  }

  lemma SkipReasonAfterThePops(blob: Blob)
    ensures "skip_reason" in Unskipped(blob) <==>
            "skip_reason" in blob && (("skipped" in blob && blob["skipped"] != Null) || blob["skip_reason"] == Null)
  {
    assert "skipped" != "skip_reason" by { assert "skipped"[4] != "skip_reason"[4]; }
  }

  lemma SkipReasonIsKept(v: Vulnerability, s: Settings, a: Answers)
    ensures ("skip_reason" in Conclude(v, s, a).enrichment) == ("skip_reason" in v.enrichment)
  {
    CompleteKeys(v);
    assert forall k | k in WAITING_KEYS :: |k| != |"skip_reason"| || k[0] != 's';
  }

  /** The value under a key that no step of the tail writes or pops. */
  lemma ConcludeKeepsValues(v: Vulnerability, s: Settings, a: Answers, key: string)
    requires key !in WAITING_KEYS && key in v.enrichment
    ensures key in Conclude(v, s, a).enrichment && Conclude(v, s, a).enrichment[key] == v.enrichment[key]
  {
    ConcludeKeepsKeys(v, s, a, key);
    CompleteKeys(v);
    assert WAITING_KEYS[0] == "waiting" && WAITING_KEYS[1] == "wait_reason" && WAITING_KEYS[2] == "wait_kind";
    assert WAITING_KEYS[3] == "missing" && WAITING_KEYS[4] == "retry_at" && WAITING_KEYS[5] == "attempts";
    assert WAITING_KEYS[6] == "last_attempt_at" && WAITING_KEYS[7] == "nvd_error" && WAITING_KEYS[8] == "epss_error";
  }

  /** After a pass that returns the row says that enrichment was skipped iff it was switched off. */
  lemma SkippedIffDisabled(v: Vulnerability, s: Settings, a: Answers)
    requires EnrichPass(v, s, a).Returned?
    ensures Has(EnrichPass(v, s, a).row.enrichment, "skipped") <==> !s.enabled
  {
    assert "skipped" != "skip_reason" by { assert "skipped"[4] != "skip_reason"[4]; }
    if s.enabled {
      assert forall k | k in WAITING_KEYS :: |k| != |"skipped"| || k[0] != 's';
      LookupsKeepOtherKeys(v, s, a, "skipped");
      var before := AfterAi(v, s, a);
      if "skipped" in before.enrichment {
        ConcludeKeepsValues(before, s, a, "skipped");
      } else {
        ConcludeKeepsKeys(before, s, a, "skipped");
      }
    }
  }

  // ---------- the back-off over runs of passes ----------

  lemma PowerOfTwoGrows(m: nat, n: nat)
    requires m <= n
    ensures 1 <= PowerOfTwo(m) <= PowerOfTwo(n)
  {
    if m < n {
      PowerOfTwoGrows(m, n - 1);
    } else if m > 0 {
      PowerOfTwoGrows(m - 1, m - 1);
    }
  }

  lemma Scale(base: int, p: int, q: int)
    requires base >= 0 && p <= q
    ensures base * p <= base * q
  {
  }

  /** The delay never shrinks with the attempts, stays within half an hour and 30 seconds, and doubles up to five
      times. */
  lemma DelayIsBoundedAndMonotone(m: int, n: int, baseSeconds: int)
    requires m <= n
    ensures 30 <= Delay(m, baseSeconds) <= Delay(n, baseSeconds) <= 1800
    ensures 0 <= m < 5 && Delay(m + 1, baseSeconds) < 1800 ==> Delay(m + 1, baseSeconds) == 2 * Delay(m, baseSeconds)
  {
    var base := Max(30, baseSeconds);
    var p, q := Min(Max(m, 0), 5), Min(Max(n, 0), 5);
    PowerOfTwoGrows(0, p);
    PowerOfTwoGrows(p, q);
    Scale(base, 1, PowerOfTwo(p));
    Scale(base, PowerOfTwo(p), PowerOfTwo(q));
    if 0 <= m < 5 {
      assert PowerOfTwo(m + 1) == 2 * PowerOfTwo(m);
      Double(base, PowerOfTwo(m));
    }
  }

  /** The first wait lasts the configured seconds, at least 30 and at most 1800, and from the sixth on the delay stays. */
  lemma DelayStartsAtTheBase(m: int, baseSeconds: int)
    requires m <= 0
    ensures Delay(m, baseSeconds) == if baseSeconds <= 30 then 30 else if baseSeconds >= 1800 then 1800 else baseSeconds
    ensures forall n | n >= 5 :: Delay(n, baseSeconds) == Delay(5, baseSeconds)
  {
    assert PowerOfTwo(0) == 1;
    Scale(Max(30, baseSeconds), 1, 1);
  }

  lemma Double(base: int, p: int)
    ensures base * (2 * p) == 2 * (base * p)
  {
  }

  datatype PassInput = PassInput(settings: Settings, answers: Answers)

  /** The row after a run of passes; a pass that raises leaves the row it raised with. */
  function Passes(v: Vulnerability, inputs: seq<PassInput>): Vulnerability {
    if inputs == [] then v
    else EnrichPass(Passes(v, inputs[..|inputs| - 1]), inputs[|inputs| - 1].settings, inputs[|inputs| - 1].answers).row
  }

  /** How often the row waited since the last pass that completed; disabled and raising passes do not count. */
  function WaitsInARow(v: Vulnerability, inputs: seq<PassInput>): int {
    if inputs == [] then Attempts(v.enrichment)
    else
      var front, last := inputs[..|inputs| - 1], inputs[|inputs| - 1];
      var exit := EnrichPass(Passes(v, front), last.settings, last.answers);
      if !last.settings.enabled || exit.Raised? then WaitsInARow(v, front)
      else if IsEnrichmentWaiting(exit.row) then WaitsInARow(v, front) + 1
      else 0
  }

  lemma AttemptsSurvive(v: Vulnerability, s: Settings, a: Answers)
    ensures Attempts(Unskipped(v.enrichment)) == Attempts(v.enrichment)
    ensures Attempts(AfterNvd(v, s, a).enrichment) == Attempts(v.enrichment)
    ensures Attempts(AfterEpss(v, s, a).enrichment) == Attempts(v.enrichment)
    ensures Attempts(AfterAi(v, s, a).enrichment) == Attempts(v.enrichment)
  {
    UnskippedKeepsAttempts(v.enrichment);
    LookupKeepsAttempts(v.enrichment, "nvd");
    LookupKeepsAttempts(AfterNvd(v, s, a).enrichment, "epss");
    LookupKeepsAttempts(AfterEpss(v, s, a).enrichment, "ai");
  }

  lemma UnskippedKeepsAttempts(blob: Blob)
    ensures Attempts(Unskipped(blob)) == Attempts(blob)
  {
  }

  lemma LookupKeepsAttempts(blob: Blob, key: string)
    requires key != "attempts"
    ensures Attempts(blob[key := Object]) == Attempts(blob)
  {
  }

  lemma DisabledKeepsAttempts(v: Vulnerability)
    ensures Attempts(Disabled(v).enrichment) == Attempts(v.enrichment)
  {
  }

  lemma OnePassCounts(v: Vulnerability, s: Settings, a: Answers)
    ensures var exit := EnrichPass(v, s, a);
            Attempts(exit.row.enrichment) ==
            if !s.enabled || exit.Raised? then Attempts(v.enrichment)
            else if IsEnrichmentWaiting(exit.row) then Attempts(v.enrichment) + 1 else 0
  {
    AttemptsSurvive(v, s, a);
    DisabledKeepsAttempts(AfterSource(v, a));
    if s.enabled && EnrichPass(v, s, a).Returned? {
      MarkersAgree(v, s, a);
      WaitingKeys(AfterAi(v, s, a), s, a);
      WaitingKeyIsListed();
    }
  }

  /** Main result: over every run of passes, enabled or not, raising or not, `attempts` is the number of waiting passes
      since the last complete one. */
  lemma {:induction false} AttemptsCountTheWaits(v: Vulnerability, inputs: seq<PassInput>)
    ensures Attempts(Passes(v, inputs).enrichment) == WaitsInARow(v, inputs)
  {
    if inputs != [] {
      var front, last := inputs[..|inputs| - 1], inputs[|inputs| - 1];
      AttemptsCountTheWaits(v, front);
      OnePassCounts(Passes(v, front), last.settings, last.answers);
    }
  }

  lemma OneWaitIsRetried(v: Vulnerability, s: Settings, a: Answers)
    requires s.enabled && EnrichPass(v, s, a).Returned? && IsEnrichmentWaiting(EnrichPass(v, s, a).row)
    ensures var blob := EnrichPass(v, s, a).row.enrichment;
            "retry_at" in blob && blob["retry_at"] == Num(a.clock + Delay(Attempts(v.enrichment), s.retrySeconds))
  {
    MarkersAgree(v, s, a);
    AttemptsSurvive(v, s, a);
    WaitingKeys(AfterAi(v, s, a), s, a);
  }

  /** So the k-th wait in a row is retried after the k-th delay of the back-off. */
  lemma RetryFollowsTheBackoff(v: Vulnerability, inputs: seq<PassInput>, last: PassInput)
    requires last.settings.enabled
    requires var exit := EnrichPass(Passes(v, inputs), last.settings, last.answers);
             exit.Returned? && IsEnrichmentWaiting(exit.row)
    ensures var row := Passes(v, inputs + [last]);
            "retry_at" in row.enrichment &&
            row.enrichment["retry_at"] ==
              Num(last.answers.clock + Delay(WaitsInARow(v, inputs + [last]) - 1, last.settings.retrySeconds))
  {
    AttemptsCountTheWaits(v, inputs);
    OneWaitIsRetried(Passes(v, inputs), last.settings, last.answers);
    OneMorePass(v, inputs, last);
  }

  lemma OneMorePass(v: Vulnerability, inputs: seq<PassInput>, last: PassInput)
    requires last.settings.enabled
    requires var exit := EnrichPass(Passes(v, inputs), last.settings, last.answers);
             exit.Returned? && IsEnrichmentWaiting(exit.row)
    ensures Passes(v, inputs + [last]) == EnrichPass(Passes(v, inputs), last.settings, last.answers).row
    ensures WaitsInARow(v, inputs + [last]) == WaitsInARow(v, inputs) + 1
  {
    assert (inputs + [last])[..|inputs|] == inputs;
  }
}
