/** Rows and enumerations shared by the pipeline steps (app/models/). */
module Records {
  import opened Wrappers

  type Cve = string

  /** `PipelineStatus` of app/models/enums.py. */
  datatype PipelineStatus = INGESTED | EXTRACTED | ENRICHED | MATCHED | ACTIONED | AI_FALLBACK | FAILED

  /** `ingest_events.status`. */
  datatype EventStatus = Queued | Processing | Done | Skipped | Duplicate | Failed

  /** Values the enrichment blob holds. */
  datatype Json = Null | Flag(on: bool) | Num(n: int) | Text(text: string) | Names(names: seq<string>) | Object

  /** Python truth value. */
  predicate Truthy(v: Json) {
    match v
    case Null => false
    case Flag(on) => on
    case Num(n) => n != 0
    case Text(text) => text != ""
    case Names(names) => names != []
    case Object => true
  }

  type Blob = map<string, Json>

  /** `blob.get(key)` in a condition. */
  predicate Has(blob: Blob, key: string) {
    key in blob && Truthy(blob[key])
  }

  /** The columns of `vulnerabilities` the pipeline decides on. Identity columns hold the cleaned
      text: the empty string stands for a missing name and for every placeholder of one. */
  datatype Vulnerability = Vulnerability(
    cveId: string,
    vendor: string,
    product: string,
    cvss: Option<real>,
    epss: Option<real>,
    status: PipelineStatus,
    pipelineStatus: string,
    enrichment: Blob,
    aiExtraction: bool,
    aiEnrichment: bool,
    aiMatching: bool)

  const WAITING_ENRICHMENT := "waiting_enrichment"

  /** `dashboard_for` of app/pipeline/state.py. */
  function DashboardFor(status: PipelineStatus, waiting: bool): string {
    if waiting then WAITING_ENRICHMENT
    else match status
      case INGESTED => "ingested"
      case EXTRACTED => "extracting"
      case ENRICHED => "enriching"
      case MATCHED => "matching"
      case ACTIONED => "completed"
      case AI_FALLBACK => "enriching"
      case FAILED => "failed"
  }

  /** `apply_status`: both status columns are written together. */
  function ApplyStatus(vuln: Vulnerability, status: PipelineStatus, waiting: bool): Vulnerability {
    vuln.(status := status, pipelineStatus := DashboardFor(status, waiting))
  }

  /** `is_enrichment_waiting` and `_waiting_intel`. */
  predicate IsEnrichmentWaiting(vuln: Vulnerability) {
    Has(vuln.enrichment, "waiting") || vuln.pipelineStatus == WAITING_ENRICHMENT
  }
}
