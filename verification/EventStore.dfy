/** The tables ingestion works on, and chunked deletion (app/services/ingestion.py). */
module EventStore {
  import opened Events
  import opened Records
  import opened Wrappers

  datatype RunRow = RunRow(id: nat, eventId: Option<nat>)

  predicate RefersTo(run: RunRow, ids: set<nat>) {
    run.eventId.Some? && run.eventId.value in ids
  }

  function RunsWithout(runs: seq<RunRow>, ids: set<nat>): seq<RunRow> {
    if runs == [] then []
    else
      RunsWithout(runs[..|runs| - 1], ids) +
      if RefersTo(runs[|runs| - 1], ids) then [] else [runs[|runs| - 1]]
  }

  /** The database as a value. `counts` is `input_sources.event_count`, `enqueued` the ids handed to the work queue. */
  datatype Db = Db(
    events: seq<Event>,
    runs: seq<RunRow>,
    vulns: set<Cve>,
    counts: map<nat, int>,
    enqueued: seq<nat>)

  function CountOf(db: Db, source: nat): int {
    if source in db.counts then db.counts[source] else 0
  }

  function AsSet<T>(items: seq<T>): set<T> {
    set x | x in items
  }

  /** Deleting rows by id in one statement, with the runs that refer to them. */
  function Deleted(db: Db, ids: set<nat>): Db {
    db.(events := Without(db.events, ids), runs := RunsWithout(db.runs, ids))
  }

  class Store {
    var events: seq<Event>
    var runs: seq<RunRow>
    var vulns: set<Cve>
    var counts: map<nat, int>
    var enqueued: seq<nat>

    function View(): Db
      reads this
    {
      Db(events, runs, vulns, counts, enqueued)
    }

    constructor ()
      ensures View() == Db([], [], {}, map[], [])
    {
      events, runs, vulns, counts, enqueued := [], [], {}, map[], [];
    }
  }

  // ---------- chunks ----------

  function Flatten<T>(chunks: seq<seq<T>>): seq<T> {
    if chunks == [] then [] else Flatten(chunks[..|chunks| - 1]) + chunks[|chunks| - 1]
  }

  /** `_iter_chunks`: consecutive slices, all of the given size but possibly the last. */
  method IterChunks(items: seq<nat>, size: nat) returns (chunks: seq<seq<nat>>)
    requires size > 0
    ensures Flatten(chunks) == items
    ensures forall i | 0 <= i < |chunks| :: 0 < |chunks[i]| <= size
    ensures forall i | 0 <= i < |chunks| - 1 :: |chunks[i]| == size
  {
    chunks := [];
    var start := 0;
    while start < |items|
      invariant Flatten(chunks) == items[..if start < |items| then start else |items|]
      invariant forall i | 0 <= i < |chunks| :: 0 < |chunks[i]| <= size
      invariant forall i | 0 <= i < |chunks| - 1 :: |chunks[i]| == size
      invariant start < |items| && chunks != [] ==> |chunks[|chunks| - 1]| == size
    {
      var stop := if start + size < |items| then start + size else |items|;
      var chunk := items[start..stop];
      assert (chunks + [chunk])[..|chunks|] == chunks;
      assert items[..start] + chunk == items[..stop];
      chunks := chunks + [chunk];
      start := start + size;
    }
  }

  // ---------- deletion ----------

  lemma {:induction false} LengthOfWithout(events: seq<Event>, ids: set<nat>)
    requires InIdOrder(events)
    ensures |Without(events, ids)| + |ids * Ids(events)| == |events|
  {
    if events == [] {
      assert ids * Ids(events) == {};
    } else {
      var front, last := events[..|events| - 1], events[|events| - 1];
      assert events == front + [last];
      LengthOfWithout(front, ids);
      NewestIdIsNew(front, last);
      MeetOneMore(ids, Ids(front), last.id);
    }
  }

  lemma {:induction false} RunsWithoutTwice(runs: seq<RunRow>, a: set<nat>, b: set<nat>)
    ensures RunsWithout(RunsWithout(runs, a), b) == RunsWithout(runs, a + b)
  {
    if runs != [] {
      var front, last := runs[..|runs| - 1], runs[|runs| - 1];
      RunsWithoutTwice(front, a, b);
      if !RefersTo(last, a) {
        var kept := RunsWithout(front, a);
        assert (kept + [last])[..|kept|] == kept;
      } else {
        assert RunsWithout(runs, a) == RunsWithout(front, a);
      }
    }
  }

  lemma {:induction false} RunsWithoutNothing(runs: seq<RunRow>)
    ensures RunsWithout(runs, {}) == runs
  {
    if runs != [] {
      RunsWithoutNothing(runs[..|runs| - 1]);
    }
  }

  lemma {:induction false} FlattenPrefix(chunks: seq<seq<nat>>, k: nat)
    requires k < |chunks|
    ensures AsSet(Flatten(chunks[..k + 1])) == AsSet(Flatten(chunks[..k])) + AsSet(chunks[k])
  {
    assert chunks[..k + 1][..k] == chunks[..k];
  }

  lemma DeletedTwice(db: Db, a: set<nat>, b: set<nat>)
    ensures Deleted(Deleted(db, a), b) == Deleted(db, a + b)
  {
    WithoutTwice(db.events, a, b);
    RunsWithoutTwice(db.runs, a, b);
  }

  lemma DeletedNothing(db: Db)
    ensures Deleted(db, {}) == db
  {
    WithoutNothing(db.events);
    RunsWithoutNothing(db.runs);
  }

  /** The two delete statements for one chunk. */
  method DeleteChunk(db: Store, chunk: seq<nat>) returns (n: nat)
    modifies db
    ensures db.View() == Deleted(old(db.View()), AsSet(chunk))
    ensures n + |db.events| == |old(db.events)|
  {
    WithoutKeepsTheRest(db.events, AsSet(chunk));
    n := |db.events| - |Without(db.events, AsSet(chunk))|;
    db.runs := RunsWithout(db.runs, AsSet(chunk));
    db.events := Without(db.events, AsSet(chunk));
  }

  method DeleteChunks(db: Store, chunks: seq<seq<nat>>) returns (deleted: nat)
    modifies db
    ensures db.View() == Deleted(old(db.View()), AsSet(Flatten(chunks)))
    ensures deleted + |db.events| == |old(db.events)|
  {
    ghost var before := db.View();
    DeletedNothing(before);
    assert chunks[..0] == [] && AsSet<nat>([]) == {};
    deleted := 0;
    for k := 0 to |chunks|
      invariant db.View() == Deleted(before, AsSet(Flatten(chunks[..k])))
      invariant deleted + |db.events| == |before.events|
    {
      DeletedTwice(before, AsSet(Flatten(chunks[..k])), AsSet(chunks[k]));
      FlattenPrefix(chunks, k);
      var n := DeleteChunk(db, chunks[k]);
      deleted := deleted + n;
    }
    assert chunks[..|chunks|] == chunks;
  }

  /** Main result: deleting chunk by chunk refines one delete statement for all the ids, whatever the
      chunk size and however often an id is repeated; the total is the number of distinct existing ids. */
  method DeleteEventsById(db: Store, ids: seq<nat>, chunkSize: nat) returns (deleted: nat)
    requires chunkSize > 0 && InIdOrder(db.events)
    modifies db
    ensures db.View() == Deleted(old(db.View()), AsSet(ids))
    ensures deleted == |AsSet(ids) * Ids(old(db.events))|
  {
    var distinct := Dedupe(ids);
    assert AsSet(distinct) == AsSet(ids);
    LengthOfWithout(db.events, AsSet(ids));
    if distinct == [] {
      assert AsSet(ids) == {};
      DeletedNothing(db.View());
      return 0;
    }
    var chunks := IterChunks(distinct, chunkSize);
    deleted := DeleteChunks(db, chunks);
  }

  /** What deletion leaves: the other rows untouched, and no run that refers to a deleted event. */
  lemma {:induction false} DeletionLeavesNoDanglingRun(runs: seq<RunRow>, ids: set<nat>)
    ensures forall run :: run in RunsWithout(runs, ids) <==> run in runs && !RefersTo(run, ids)
  {
    if runs != [] {
      DeletionLeavesNoDanglingRun(runs[..|runs| - 1], ids);
      assert runs == runs[..|runs| - 1] + [runs[|runs| - 1]];
    }
  }
}
