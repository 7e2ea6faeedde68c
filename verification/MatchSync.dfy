/** Matching against the local asset catalog and the reconciliation of match links (app/pipeline/step4_match.py). */
module MatchSync {
  import opened Wrappers

  /** What matching reads of a catalog row. */
  datatype Asset = Asset(id: nat, active: bool, source: string)

  /** `version_overlap`: drop the hit, or keep it with a bump in hundredths. */
  datatype Overlap = Veto | KeepAsIs | KeepClose | KeepExact

  /** What the text heuristics say about one CVE and each asset. */
  datatype Heuristics = Heuristics(linuxCve: bool, linuxAsset: Asset -> bool, direct: Asset -> bool,
                                   overlap: Asset -> Overlap)

  /** A matched asset with its confidence in hundredths. */
  datatype Hit = Hit(asset: Asset, confidence: nat)

  const DIRECT := 92
  const FAMILY := 86
  const CAP := 99

  // ---------- match_local_assets ----------

  function Bump(o: Overlap): nat {
    match o
    case Veto => 0
    case KeepAsIs => 0
    case KeepClose => 5
    case KeepExact => 10
  }

  predicate IsFamilyHit(h: Heuristics, a: Asset) {
    h.linuxCve && h.linuxAsset(a)
  }

  /** Which active assets are hit: the Linux family whatever the versions say, a name hit unless its version is
      vetoed. */
  predicate IsHit(h: Heuristics, a: Asset) {
    a.active && (IsFamilyHit(h, a) || (h.direct(a) && !h.overlap(a).Veto?))
  }

  function Confidence(h: Heuristics, a: Asset): nat {
    var raw := if h.direct(a) then DIRECT + Bump(h.overlap(a)) else FAMILY;
    if raw < CAP then raw else CAP
  }

  function Hits(h: Heuristics, assets: seq<Asset>): seq<Hit> {
    if assets == [] then []
    else
      Hits(h, assets[..|assets| - 1]) +
      var a := assets[|assets| - 1];
      if IsHit(h, a) then [Hit(a, Confidence(h, a))] else []
  }

  method MatchLocalAssets(h: Heuristics, assets: seq<Asset>) returns (hits: seq<Hit>)
    ensures hits == Hits(h, assets)
  {
    hits := [];
    for i := 0 to |assets|
      invariant hits == Hits(h, assets[..i])
    {
      assert assets[..i + 1][..i] == assets[..i];
      var a := assets[i];
      if !a.active {
        continue;
      }
      var family := h.linuxCve && h.linuxAsset(a);
      var direct := h.direct(a);
      if !family && !direct {
        continue;
      }
      var bump := 0;
      if direct {
        var overlap := h.overlap(a);
        if overlap.Veto? && !family {
          continue;
        }
        bump := Bump(overlap);
      }
      var confidence := (if direct then DIRECT else FAMILY) + bump;
      hits := hits + [Hit(a, if confidence < CAP then confidence else CAP)];
    }
    assert assets[..|assets|] == assets;
  }

  ghost predicate DistinctAssets(assets: seq<Asset>) {
    forall i, j | 0 <= i < j < |assets| :: assets[i].id != assets[j].id
  }

  ghost predicate DistinctHits(hits: seq<Hit>) {
    forall i, j | 0 <= i < j < |hits| :: hits[i].asset.id != hits[j].asset.id
  }

  /** Main result on matching: exactly the hit assets are returned, each once, with a confidence from 0.86 to 0.99. */
  lemma {:induction false} HitsAreTheHitAssets(h: Heuristics, assets: seq<Asset>)
    requires DistinctAssets(assets)
    ensures DistinctHits(Hits(h, assets))
    ensures forall hit | hit in Hits(h, assets) :: FAMILY <= hit.confidence <= CAP
    ensures forall a | a in assets :: (exists hit :: hit in Hits(h, assets) && hit.asset == a) <==> IsHit(h, a)
    ensures forall hit | hit in Hits(h, assets) :: hit.asset in assets
  {
    if assets != [] {
      var front, a := assets[..|assets| - 1], assets[|assets| - 1];
      assert assets == front + [a];
      HitsAreTheHitAssets(h, front);
      assert forall b | b in front :: b.id != a.id;
      if IsHit(h, a) {
        var hits := Hits(h, assets);
        assert hits[|hits| - 1] == Hit(a, Confidence(h, a));
        assert hits == Hits(h, front) + [Hit(a, Confidence(h, a))];
      }
    }
  }

  /** The confidences, in hundredths: a name hit counts more than a family hit, an exact version more than a close one, and
      a version that says nothing or is passed over for the family adds nothing. */
  lemma ConfidenceByVersion(h: Heuristics, a: Asset)
    ensures Confidence(h, a) == if !h.direct(a) then 86
                                else match h.overlap(a)
                                     case Veto => 92
                                     case KeepAsIs => 92
                                     case KeepClose => 97
                                     case KeepExact => 99
  {
  }

  /** A version veto never drops a Linux-family hit. */
  lemma VetoKeepsFamilyHits(h: Heuristics, assets: seq<Asset>, a: Asset)
    requires DistinctAssets(assets) && a in assets && a.active && IsFamilyHit(h, a)
    ensures exists hit :: hit in Hits(h, assets) && hit.asset == a && hit.confidence >= FAMILY
  {
    HitsAreTheHitAssets(h, assets);
    assert IsHit(h, a);
  }

  // ---------- match links ----------

  datatype Link = Link(confidence: nat, how: string)

  datatype LinkRow = LinkRow(vuln: nat, asset: nat, link: Link)

  predicate Is(row: LinkRow, vuln: nat, asset: nat) {
    row.vuln == vuln && row.asset == asset
  }

  ghost predicate OneRowPerLink(rows: seq<LinkRow>) {
    forall i, j | 0 <= i < j < |rows| :: !Is(rows[i], rows[j].vuln, rows[j].asset)
  }

  /** The stored link of a CVE and an asset. */
  function LinkOf(rows: seq<LinkRow>, vuln: nat, asset: nat): Option<Link> {
    if rows == [] then None
    else
      var last := rows[|rows| - 1];
      if Is(last, vuln, asset) then Some(last.link) else LinkOf(rows[..|rows| - 1], vuln, asset)
  }

  const KNOWN_SOURCES := {"csv", "cmdb", "sonatype", "itnm", "local"}

  function How(a: Asset): string {
    if a.source in KNOWN_SOURCES then a.source else "local"
  }

  function AssetIds(hits: seq<Hit>): set<nat> {
    set hit | hit in hits :: hit.asset.id
  }

  /** Rows of the CVE whose asset is no longer matched are deleted. */
  function Kept(rows: seq<LinkRow>, vuln: nat, keep: set<nat>): seq<LinkRow> {
    if rows == [] then []
    else
      var last := rows[|rows| - 1];
      Kept(rows[..|rows| - 1], vuln, keep) + if last.vuln == vuln && last.asset !in keep then [] else [last]
  }

  function Raised(old_: Option<Link>, hit: Hit): Link {
    Link(if old_.Some? && old_.value.confidence > hit.confidence then old_.value.confidence else hit.confidence, How(hit.asset))
  }

  /** `_upsert_match`: the existing row keeps the higher confidence and takes the new method; otherwise a row is
      added. */
  function Upserted(rows: seq<LinkRow>, vuln: nat, hit: Hit): seq<LinkRow> {
    if rows == [] then [LinkRow(vuln, hit.asset.id, Raised(None, hit))]
    else
      var front, last := rows[..|rows| - 1], rows[|rows| - 1];
      if Is(last, vuln, hit.asset.id) then front + [last.(link := Raised(Some(last.link), hit))]
      else if LinkOf(front, vuln, hit.asset.id).Some? then Upserted(front, vuln, hit) + [last]
      else rows + [LinkRow(vuln, hit.asset.id, Raised(None, hit))]
  }

  function UpsertedAll(rows: seq<LinkRow>, vuln: nat, hits: seq<Hit>): seq<LinkRow> {
    if hits == [] then rows else Upserted(UpsertedAll(rows, vuln, hits[..|hits| - 1]), vuln, hits[|hits| - 1])
  }

  /** `_sync_matches`. */
  function Synced(rows: seq<LinkRow>, vuln: nat, hits: seq<Hit>): seq<LinkRow> {
    UpsertedAll(Kept(rows, vuln, AssetIds(hits)), vuln, hits)
  }

  // ---------- what each piece does to the links ----------

  lemma {:induction false} LinkIsARow(rows: seq<LinkRow>, vuln: nat, asset: nat)
    ensures LinkOf(rows, vuln, asset).Some? <==> exists i :: 0 <= i < |rows| && Is(rows[i], vuln, asset)
  {
    if rows != [] {
      var front := rows[..|rows| - 1];
      LinkIsARow(front, vuln, asset);
      if i :| 0 <= i < |rows| && Is(rows[i], vuln, asset) {
        assert i < |rows| - 1 ==> Is(front[i], vuln, asset);
      }
      if j :| 0 <= j < |front| && Is(front[j], vuln, asset) {
        assert Is(rows[j], vuln, asset);
      }
    }
  }

  lemma {:induction false} LinkAfterKept(rows: seq<LinkRow>, vuln: nat, keep: set<nat>, v: nat, a: nat)
    ensures LinkOf(Kept(rows, vuln, keep), v, a) == if v == vuln && a !in keep then None else LinkOf(rows, v, a)
  {
    if rows != [] {
      LinkAfterKept(rows[..|rows| - 1], vuln, keep, v, a);
      var front := Kept(rows[..|rows| - 1], vuln, keep);
      assert (front + [rows[|rows| - 1]])[..|front|] == front && front + [] == front;
    }
  }

  lemma LinkOfSnoc(rows: seq<LinkRow>, row: LinkRow, v: nat, a: nat)
    ensures LinkOf(rows + [row], v, a) == if Is(row, v, a) then Some(row.link) else LinkOf(rows, v, a)
  {
    assert (rows + [row])[..|rows|] == rows;
  }

  lemma {:induction false} LinkAfterUpsert(rows: seq<LinkRow>, vuln: nat, hit: Hit, v: nat, a: nat)
    ensures LinkOf(Upserted(rows, vuln, hit), v, a) ==
            if v == vuln && a == hit.asset.id then Some(Raised(LinkOf(rows, v, a), hit)) else LinkOf(rows, v, a)
  {
    if rows == [] {
      LinkOfSnoc([], LinkRow(vuln, hit.asset.id, Raised(None, hit)), v, a);
      assert [] + [LinkRow(vuln, hit.asset.id, Raised(None, hit))] == Upserted(rows, vuln, hit);
    } else {
      var front, last := rows[..|rows| - 1], rows[|rows| - 1];
      if Is(last, vuln, hit.asset.id) {
        LinkOfSnoc(front, last.(link := Raised(Some(last.link), hit)), v, a);
      } else if LinkOf(front, vuln, hit.asset.id).Some? {
        LinkAfterUpsert(front, vuln, hit, v, a);
        LinkOfSnoc(Upserted(front, vuln, hit), last, v, a);
      } else {
        LinkOfSnoc(rows, LinkRow(vuln, hit.asset.id, Raised(None, hit)), v, a);
      }
    }
  }

  function HitFor(hits: seq<Hit>, asset: nat): Option<Hit> {
    if hits == [] then None
    else if hits[|hits| - 1].asset.id == asset then Some(hits[|hits| - 1])
    else HitFor(hits[..|hits| - 1], asset)
  }

  lemma {:induction false} HitForFinds(hits: seq<Hit>, asset: nat)
    ensures HitFor(hits, asset).Some? <==> asset in AssetIds(hits)
    ensures HitFor(hits, asset).Some? ==> HitFor(hits, asset).value in hits && HitFor(hits, asset).value.asset.id == asset
  {
    if hits != [] {
      HitForFinds(hits[..|hits| - 1], asset);
      assert hits == hits[..|hits| - 1] + [hits[|hits| - 1]];
    }
  }

  lemma {:induction false} LinkAfterUpserts(rows: seq<LinkRow>, vuln: nat, hits: seq<Hit>, v: nat, a: nat)
    requires DistinctHits(hits)
    ensures LinkOf(UpsertedAll(rows, vuln, hits), v, a) ==
            if v == vuln && HitFor(hits, a).Some? then Some(Raised(LinkOf(rows, v, a), HitFor(hits, a).value))
            else LinkOf(rows, v, a)
  {
    if hits != [] {
      var front, last := hits[..|hits| - 1], hits[|hits| - 1];
      LinkAfterUpserts(rows, vuln, front, v, a);
      LinkAfterUpsert(UpsertedAll(rows, vuln, front), vuln, last, v, a);
      HitForFinds(front, a);
      assert forall hit | hit in front :: hit.asset.id != last.asset.id;
    }
  }

  /** Main result for one call: the CVE's links are exactly the matched assets, each with the higher of its old and new
      confidence, and no other CVE's link changes. */
  lemma LinkAfterSync(rows: seq<LinkRow>, vuln: nat, hits: seq<Hit>, v: nat, a: nat)
    requires DistinctHits(hits)
    ensures LinkOf(Synced(rows, vuln, hits), v, a) ==
            if v != vuln then LinkOf(rows, v, a)
            else if HitFor(hits, a).None? then None
            else Some(Raised(LinkOf(rows, v, a), HitFor(hits, a).value))
  {
    LinkAfterUpserts(Kept(rows, vuln, AssetIds(hits)), vuln, hits, v, a);
    LinkAfterKept(rows, vuln, AssetIds(hits), v, a);
    HitForFinds(hits, a);
  }

  // ---------- one row per link ----------

  lemma {:induction false} KeptRows(rows: seq<LinkRow>, vuln: nat, keep: set<nat>)
    requires OneRowPerLink(rows)
    ensures OneRowPerLink(Kept(rows, vuln, keep))
  {
    if rows != [] {
      var front, last := rows[..|rows| - 1], rows[|rows| - 1];
      KeptRows(front, vuln, keep);
      LinkAfterKept(front, vuln, keep, last.vuln, last.asset);
      LinkIsARow(front, last.vuln, last.asset);
      LinkIsARow(Kept(front, vuln, keep), last.vuln, last.asset);
    }
  }

  lemma {:induction false} UpsertRows(rows: seq<LinkRow>, vuln: nat, hit: Hit)
    requires OneRowPerLink(rows)
    ensures OneRowPerLink(Upserted(rows, vuln, hit))
  {
    if rows != [] {
      var front, last := rows[..|rows| - 1], rows[|rows| - 1];
      if Is(last, vuln, hit.asset.id) {
      } else if LinkOf(front, vuln, hit.asset.id).Some? {
        UpsertRows(front, vuln, hit);
        LinkAfterUpsert(front, vuln, hit, last.vuln, last.asset);
        LinkIsARow(front, last.vuln, last.asset);
        LinkIsARow(Upserted(front, vuln, hit), last.vuln, last.asset);
      } else {
        LinkIsARow(rows, vuln, hit.asset.id);
      }
    }
  }

  lemma {:induction false} SyncRows(rows: seq<LinkRow>, vuln: nat, hits: seq<Hit>)
    requires OneRowPerLink(rows)
    ensures OneRowPerLink(UpsertedAll(rows, vuln, hits))
  {
    if hits != [] {
      SyncRows(rows, vuln, hits[..|hits| - 1]);
      UpsertRows(UpsertedAll(rows, vuln, hits[..|hits| - 1]), vuln, hits[|hits| - 1]);
    }
  }

  // ---------- histories of synchronisations ----------

  datatype Sync = Sync(vuln: nat, hits: seq<Hit>)

  function SyncedAll(syncs: seq<Sync>): seq<LinkRow> {
    if syncs == [] then []
    else Synced(SyncedAll(syncs[..|syncs| - 1]), syncs[|syncs| - 1].vuln, syncs[|syncs| - 1].hits)
  }

  /** What the CVE's latest unbroken run of synchronisations that contain the asset says: the highest confidence in the
      run and the method of the last one; nothing when the last one does not contain the asset. */
  function LatestRun(syncs: seq<Sync>, vuln: nat, asset: nat): Option<Link> {
    if syncs == [] then None
    else
      var front, last := syncs[..|syncs| - 1], syncs[|syncs| - 1];
      if last.vuln != vuln then LatestRun(front, vuln, asset)
      else if HitFor(last.hits, asset).None? then None
      else Some(Raised(LatestRun(front, vuln, asset), HitFor(last.hits, asset).value))
  }

  ghost predicate AllDistinct(syncs: seq<Sync>) {
    forall i | 0 <= i < |syncs| :: DistinctHits(syncs[i].hits)
  }

  /** Main result: over every sequence of synchronisations each CVE and asset have at most one row, and the link is the
      maximum over the latest unbroken run that contains the asset. */
  lemma {:induction false} LinksAreTheLatestRuns(syncs: seq<Sync>, vuln: nat, asset: nat)
    requires AllDistinct(syncs)
    ensures OneRowPerLink(SyncedAll(syncs))
    ensures LinkOf(SyncedAll(syncs), vuln, asset) == LatestRun(syncs, vuln, asset)
  {
    if syncs != [] {
      var front, last := syncs[..|syncs| - 1], syncs[|syncs| - 1];
      LinksAreTheLatestRuns(front, vuln, asset);
      KeptRows(SyncedAll(front), last.vuln, AssetIds(last.hits));
      SyncRows(Kept(SyncedAll(front), last.vuln, AssetIds(last.hits)), last.vuln, last.hits);
      LinkAfterSync(SyncedAll(front), last.vuln, last.hits, vuln, asset);
    }
  }

  /** The confidences in the CVE's latest unbroken run of synchronisations that contain the asset, oldest first. */
  function RunConfidences(syncs: seq<Sync>, vuln: nat, asset: nat): seq<nat> {
    if syncs == [] then []
    else
      var front, last := syncs[..|syncs| - 1], syncs[|syncs| - 1];
      if last.vuln != vuln then RunConfidences(front, vuln, asset)
      else if HitFor(last.hits, asset).None? then []
      else RunConfidences(front, vuln, asset) + [HitFor(last.hits, asset).value.confidence]
  }

  /** Main result: in every history the link exists iff the latest unbroken run is not empty, and its confidence is the
      maximum of that run. */
  lemma {:induction false} LinkHoldsTheMaximum(syncs: seq<Sync>, vuln: nat, asset: nat)
    requires AllDistinct(syncs)
    ensures var link, run := LinkOf(SyncedAll(syncs), vuln, asset), RunConfidences(syncs, vuln, asset);
            && (link.Some? <==> run != [])
            && (link.Some? ==> link.value.confidence in run && forall x | x in run :: x <= link.value.confidence)
  {
    LinksAreTheLatestRuns(syncs, vuln, asset);
    LatestRunIsTheMaximum(syncs, vuln, asset);
  }

  lemma {:induction false} LatestRunIsTheMaximum(syncs: seq<Sync>, vuln: nat, asset: nat)
    ensures var link, run := LatestRun(syncs, vuln, asset), RunConfidences(syncs, vuln, asset);
            && (link.Some? <==> run != [])
            && (link.Some? ==> link.value.confidence in run && forall x | x in run :: x <= link.value.confidence)
  {
    if syncs != [] {
      var front, last := syncs[..|syncs| - 1], syncs[|syncs| - 1];
      LatestRunIsTheMaximum(front, vuln, asset);
      if last.vuln == vuln && HitFor(last.hits, asset).Some? {
        var run := RunConfidences(front, vuln, asset) + [HitFor(last.hits, asset).value.confidence];
        assert run[|run| - 1] in run;
        assert forall x | x in RunConfidences(front, vuln, asset) :: x in run;
      }
    }
  }

  // ---------- match_assets ----------

  /** The links after `match_assets`: an empty inventory leaves them alone, a CVE without identity loses them. */
  function LinksAfterMatch(rows: seq<LinkRow>, vuln: nat, hasIdentity: bool, h: Heuristics,
                           assets: seq<Asset>): seq<LinkRow> {
    if !HasActive(assets) then rows
    else if !hasIdentity then Synced(rows, vuln, [])
    else Synced(rows, vuln, Hits(h, assets))
  }

  predicate HasActive(assets: seq<Asset>) {
    exists a :: a in assets && a.active
  }

  /** Whether `match_assets` returns a link, which is what lets the pipeline go on to tickets. */
  predicate ReportsAMatch(hasIdentity: bool, h: Heuristics, assets: seq<Asset>) {
    hasIdentity && Hits(h, assets) != []
  }

  lemma {:induction false} HitForAnAsset(h: Heuristics, assets: seq<Asset>, a: Asset)
    requires DistinctAssets(assets) && a in assets
    ensures HitFor(Hits(h, assets), a.id) == if IsHit(h, a) then Some(Hit(a, Confidence(h, a))) else None
  {
    HitsAreTheHitAssets(h, assets);
    ConfidencesAreComputed(h, assets);
    HitForFinds(Hits(h, assets), a.id);
    var found := HitFor(Hits(h, assets), a.id);
    if found.Some? {
      SameIdSameAsset(assets, found.value.asset, a);
      assert found.value in Hits(h, assets);
    }
    if IsHit(h, a) {
      var hit :| hit in Hits(h, assets) && hit.asset == a;
      assert a.id in AssetIds(Hits(h, assets));
    }
  }

  lemma SameIdSameAsset(assets: seq<Asset>, a: Asset, b: Asset)
    requires DistinctAssets(assets) && a in assets && b in assets && a.id == b.id
    ensures a == b
  {
    var i :| 0 <= i < |assets| && assets[i] == a;
    var j :| 0 <= j < |assets| && assets[j] == b;
  }

  lemma {:induction false} ConfidencesAreComputed(h: Heuristics, assets: seq<Asset>)
    ensures forall hit | hit in Hits(h, assets) :: hit.confidence == Confidence(h, hit.asset)
  {
    if assets != [] {
      ConfidencesAreComputed(h, assets[..|assets| - 1]);
    }
  }

  /** Main result on the columns: after `match_assets` of a CVE with identity over an inventory with an active system, an
      asset is linked iff it is active and of the Linux family of a Linux CVE or named without a version that rules it
      out. Its confidence is the higher of the stored one and 0.86 for the family alone, 0.92, 0.97 and 0.99 for a name
      with no, a close and an exact version, and its method is its source if that is one of the five known ones. */
  lemma LinkAfterMatch(rows: seq<LinkRow>, vuln: nat, h: Heuristics, assets: seq<Asset>, a: Asset)
    requires DistinctAssets(assets) && a in assets && HasActive(assets)
    ensures var was, link := LinkOf(rows, vuln, a.id), LinkOf(LinksAfterMatch(rows, vuln, true, h, assets), vuln, a.id);
            && (link.Some? <==>
                  a.active && ((h.linuxCve && h.linuxAsset(a)) || (h.direct(a) && h.overlap(a) != Veto)))
            && (link.Some? ==>
                  var now := if !h.direct(a) then 86 else if h.overlap(a).KeepExact? then 99
                             else if h.overlap(a).KeepClose? then 97 else 92;
                  && link.value.confidence == (if was.Some? && was.value.confidence > now then was.value.confidence else now)
                  && link.value.how == if a.source in {"csv", "cmdb", "sonatype", "itnm", "local"} then a.source else "local")
  {
    HitsAreTheHitAssets(h, assets);
    LinkAfterSync(rows, vuln, Hits(h, assets), vuln, a.id);
    HitForAnAsset(h, assets, a);
    ConfidenceByVersion(h, a);
  }

  predicate HasLink(rows: seq<LinkRow>, vuln: nat) {
    exists row :: row in rows && row.vuln == vuln
  }

  lemma {:induction false} NoActiveNoHits(h: Heuristics, assets: seq<Asset>)
    requires !HasActive(assets)
    ensures Hits(h, assets) == []
  {
    if assets != [] {
      assert assets[|assets| - 1] in assets;
      NoActiveNoHits(h, assets[..|assets| - 1]);
    }
  }

  lemma HasLinkIff(rows: seq<LinkRow>, vuln: nat)
    ensures HasLink(rows, vuln) <==> exists a :: LinkOf(rows, vuln, a).Some?
  {
    if row :| row in rows && row.vuln == vuln {
      var i :| 0 <= i < |rows| && rows[i] == row;
      LinkIsARow(rows, vuln, row.asset);
      assert Is(rows[i], vuln, row.asset);
    }
    if a :| LinkOf(rows, vuln, a).Some? {
      LinkIsARow(rows, vuln, a);
      var i :| 0 <= i < |rows| && Is(rows[i], vuln, a);
      assert rows[i] in rows;
    }
  }

  lemma SomeHitIsFound(hits: seq<Hit>)
    ensures hits != [] <==> exists a :: HitFor(hits, a).Some?
  {
    if hits != [] {
      assert HitFor(hits, hits[|hits| - 1].asset.id).Some?;
    }
  }

  lemma SyncLeavesLinksIff(rows: seq<LinkRow>, vuln: nat, hits: seq<Hit>)
    requires DistinctHits(hits)
    ensures HasLink(Synced(rows, vuln, hits), vuln) <==> hits != []
  {
    HasLinkIff(Synced(rows, vuln, hits), vuln);
    SomeHitIsFound(hits);
    var after := Synced(rows, vuln, hits);
    if a :| LinkOf(after, vuln, a).Some? {
      LinkAfterSync(rows, vuln, hits, vuln, a);
    }
    if a :| HitFor(hits, a).Some? {
      LinkAfterSync(rows, vuln, hits, vuln, a);
      assert LinkOf(after, vuln, a).Some?;
    }
  }

  /** Exactly when the stored links agree with the answer the pipeline acts on: the inventory has an active system, or
      the CVE had no link. Otherwise its old links stay while the pass reports no match. */
  lemma LinksAgreeWithTheAnswerIff(rows: seq<LinkRow>, vuln: nat, hasIdentity: bool, h: Heuristics, assets: seq<Asset>)
    requires DistinctAssets(assets)
    ensures (HasLink(LinksAfterMatch(rows, vuln, hasIdentity, h, assets), vuln) <==> ReportsAMatch(hasIdentity, h, assets)) <==>
            HasActive(assets) || !HasLink(rows, vuln)
  {
    HitsAreTheHitAssets(h, assets);
    if HasActive(assets) {
      SyncLeavesLinksIff(rows, vuln, if hasIdentity then Hits(h, assets) else []);
    } else {
      NoActiveNoHits(h, assets);
    }
  }

  // ---------- the table ----------

  class Matches {
    var rows: seq<LinkRow>

    constructor ()
      ensures rows == []
    {
      rows := [];
    }

    method UpsertMatch(vuln: nat, hit: Hit)
      modifies this
      ensures rows == Upserted(old(rows), vuln, hit)
    {
      rows := UpsertRow(rows, vuln, hit);
    }

    /** The update in place, or the added row. */
    static method UpsertRow(rows: seq<LinkRow>, vuln: nat, hit: Hit) returns (r: seq<LinkRow>)
      ensures r == Upserted(rows, vuln, hit)
    {
      var i := |rows|;
      assert rows[..i] == rows && rows[i..] == [];
      while i > 0
        invariant 0 <= i <= |rows|
        invariant LinkOf(rows, vuln, hit.asset.id) == LinkOf(rows[..i], vuln, hit.asset.id)
        invariant LinkOf(rows[..i], vuln, hit.asset.id).Some? ==>
                    Upserted(rows, vuln, hit) == Upserted(rows[..i], vuln, hit) + rows[i..]
      {
        assert rows[..i][..i - 1] == rows[..i - 1];
        if Is(rows[i - 1], vuln, hit.asset.id) {
          assert rows[..i] == rows[..i - 1] + [rows[i - 1]];
          return rows[..i - 1] + [rows[i - 1].(link := Raised(Some(rows[i - 1].link), hit))] + rows[i..];
        }
        assert rows[i - 1..] == [rows[i - 1]] + rows[i..];
        i := i - 1;
      }
      NoRowIsAdded(rows, vuln, hit);
      r := rows + [LinkRow(vuln, hit.asset.id, Raised(None, hit))];
    }

    method SyncMatches(vuln: nat, hits: seq<Hit>)
      modifies this
      ensures rows == Synced(old(rows), vuln, hits)
    {
      var keep := AssetIds(hits);
      var kept: seq<LinkRow> := [];
      for i := 0 to |rows|
        invariant rows == old(rows) && kept == Kept(rows[..i], vuln, keep)
      {
        assert rows[..i + 1][..i] == rows[..i];
        if rows[i].vuln != vuln || rows[i].asset in keep {
          kept := kept + [rows[i]];
        }
      }
      assert rows[..|rows|] == rows;
      rows := kept;
      for i := 0 to |hits|
        invariant rows == UpsertedAll(kept, vuln, hits[..i])
      {
        assert hits[..i + 1][..i] == hits[..i];
        UpsertMatch(vuln, hits[i]);
      }
      assert hits[..|hits|] == hits;
    }

    method MatchAssets(vuln: nat, hasIdentity: bool, h: Heuristics, assets: seq<Asset>) returns (matched: bool)
      modifies this
      ensures rows == LinksAfterMatch(old(rows), vuln, hasIdentity, h, assets)
      ensures matched == ReportsAMatch(hasIdentity, h, assets)
    {
      if !exists a :: a in assets && a.active {
        NoActiveNoHits(h, assets);
        return false;
      }
      if !hasIdentity {
        SyncMatches(vuln, []);
        return false;
      }
      var hits := MatchLocalAssets(h, assets);
      SyncMatches(vuln, hits);
      matched := hits != [];
    }
  }

  lemma NoRowIsAdded(rows: seq<LinkRow>, vuln: nat, hit: Hit)
    requires LinkOf(rows, vuln, hit.asset.id).None?
    ensures Upserted(rows, vuln, hit) == rows + [LinkRow(vuln, hit.asset.id, Raised(None, hit))]
  {
  }
}
