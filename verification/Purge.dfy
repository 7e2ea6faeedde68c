/** `purge_duplicate_ingest_events` of app/services/ingestion.py: one pass with three seen-sets
    against a definition of redundant rows. */
module Purge {
  import opened Events
  import opened EventStore
  import opened Ingestion
  import opened IngestHistory
  import opened Records
  import opened Wrappers

  // ---------- the scan ----------

  /** The order of the query: received_at descending, then id descending. */
  predicate Newer(a: Event, b: Event) {
    a.received > b.received || (a.received == b.received && a.id > b.id)
  }

  ghost predicate NewestFirstOrder(rows: seq<Event>) {
    forall i, j | 0 <= i < j < |rows| :: Newer(rows[i], rows[j])
  }

  function Insert(e: Event, rows: seq<Event>): seq<Event> {
    if rows == [] || Newer(rows[|rows| - 1], e) then rows + [e]
    else Insert(e, rows[..|rows| - 1]) + [rows[|rows| - 1]]
  }

  function NewestFirst(events: seq<Event>): seq<Event> {
    if events == [] then [] else Insert(events[|events| - 1], NewestFirst(events[..|events| - 1]))
  }

  function Scan(events: seq<Event>, limit: nat): seq<Event> {
    var rows := NewestFirst(events);
    if |rows| <= limit then rows else rows[..limit]
  }

  // ---------- one pass ----------

  /** `_event_is_duplicate`. */
  predicate EventIsDuplicate(e: Event) {
    e.payload.duplicate || ((e.status.Skipped? || e.status.Duplicate?) && !e.payload.feed)
  }

  predicate IsFile(e: Event) {
    e.payload.filename != ""
  }

  function FileKey(e: Event, lower: string -> string): (nat, string) {
    (e.source, lower(e.payload.filename))
  }

  datatype Pass = Pass(cves: set<Cve>, files: set<(nat, string)>, dupCves: set<Cve>, drop: seq<nat>)

  const START := Pass({}, {}, {}, [])

  predicate Repeats(p: Pass, e: Event, lower: string -> string) {
    var cves := AsSet(CvesForEvent(e));
    if IsFile(e) then FileKey(e, lower) in p.files
    else cves != {} && if EventIsDuplicate(e) then cves <= p.cves + p.dupCves else cves <= p.cves
  }

  function Look(p: Pass, e: Event, lower: string -> string): Pass {
    var cves := AsSet(CvesForEvent(e));
    if Repeats(p, e, lower) then p.(drop := p.drop + [e.id])
    else if IsFile(e) then p.(files := p.files + {FileKey(e, lower)})
    else if EventIsDuplicate(e) then p.(dupCves := p.dupCves + cves)
    else p.(cves := p.cves + cves)
  }

  function Looked(rows: seq<Event>, lower: string -> string): Pass {
    if rows == [] then START else Look(Looked(rows[..|rows| - 1], lower), rows[|rows| - 1], lower)
  }

  function Purged(db: Db, lower: string -> string, limit: nat): Db {
    Deleted(db, AsSet(Looked(Scan(db.events, limit), lower).drop))
  }

  method PurgeDuplicateIngestEvents(db: Store, lower: string -> string, limit: nat, chunkSize: nat)
    returns (removed: nat)
    requires chunkSize > 0 && InIdOrder(db.events)
    modifies db
    ensures db.View() == Purged(old(db.View()), lower, limit)
    ensures removed + |db.events| == |old(db.events)|
  {
    var rows := Scan(db.events, limit);
    var seenCves: set<Cve> := {};
    var seenFiles: set<(nat, string)> := {};
    var seenDupCves: set<Cve> := {};
    var drop: seq<nat> := [];
    for i := 0 to |rows|
      invariant Looked(rows[..i], lower) == Pass(seenCves, seenFiles, seenDupCves, drop)
    {
      assert rows[..i + 1][..i] == rows[..i];
      var e := rows[i];
      if IsFile(e) {
        var key := FileKey(e, lower);
        if key in seenFiles {
          drop := drop + [e.id];
        } else {
          seenFiles := seenFiles + {key};
        }
        continue;
      }
      var cves := AsSet(CvesForEvent(e));
      if cves == {} {
        continue;
      }
      if EventIsDuplicate(e) {
        if cves <= seenCves + seenDupCves {
          drop := drop + [e.id];
          continue;
        }
        seenDupCves := seenDupCves + cves;
        continue;
      }
      if cves <= seenCves {
        drop := drop + [e.id];
        continue;
      }
      seenCves := seenCves + cves;
    }
    assert rows[..|rows|] == rows;
    LengthOfWithout(db.events, AsSet(drop));
    removed := DeleteEventsById(db, drop, chunkSize);
  }

  // ---------- which rows are redundant ----------

  /** The ids of the non-file rows, without the duplicate plays unless they are asked for. */
  function Carried(rows: seq<Event>, withDuplicates: bool): set<Cve> {
    set e, c | e in rows && !IsFile(e) && (withDuplicates || !EventIsDuplicate(e)) && c in CvesForEvent(e) :: c
  }

  function Keys(rows: seq<Event>, lower: string -> string): set<(nat, string)> {
    set e | e in rows && IsFile(e) :: FileKey(e, lower)
  }

  /** A row is redundant when newer rows show its file, or carry all its ids; a duplicate play may also be covered
      by newer plays. */
  ghost predicate Redundant(newer: seq<Event>, e: Event, lower: string -> string) {
    if IsFile(e) then FileKey(e, lower) in Keys(newer, lower)
    else AsSet(CvesForEvent(e)) != {} && AsSet(CvesForEvent(e)) <= Carried(newer, EventIsDuplicate(e))
  }

  lemma OneMoreCarried(rows: seq<Event>, e: Event, d: bool)
    ensures Carried(rows + [e], d) ==
            Carried(rows, d) + if !IsFile(e) && (d || !EventIsDuplicate(e)) then AsSet(CvesForEvent(e)) else {}
  {
  }

  lemma OneMoreKey(rows: seq<Event>, e: Event, lower: string -> string)
    ensures Keys(rows + [e], lower) == Keys(rows, lower) + if IsFile(e) then {FileKey(e, lower)} else {}
  {
  }

  ghost predicate Tracks(p: Pass, files: set<(nat, string)>, cves: set<Cve>, all: set<Cve>) {
    p.files == files && p.cves == cves && p.cves + p.dupCves == all
  }

  lemma Absorb<T>(a: set<T>, b: set<T>, x: set<T>)
    ensures (a + x) + b == (a + b) + x && a + (b + x) == (a + b) + x
    ensures x <= a + b ==> (a + b) + x == a + b
    ensures x <= a ==> a + x == a && (a + b) + x == a + b
  {
  }

  lemma LookTracksFile(p: Pass, e: Event, lower: string -> string, files: set<(nat, string)>, cves: set<Cve>,
                       all: set<Cve>)
    requires Tracks(p, files, cves, all) && IsFile(e)
    ensures Tracks(Look(p, e, lower), files + {FileKey(e, lower)}, cves, all)
  {
  }

  lemma LookTracksPlay(p: Pass, e: Event, lower: string -> string, files: set<(nat, string)>, cves: set<Cve>,
                       all: set<Cve>)
    requires Tracks(p, files, cves, all) && !IsFile(e) && EventIsDuplicate(e)
    ensures Tracks(Look(p, e, lower), files, cves, all + AsSet(CvesForEvent(e)))
  {
    Absorb(p.cves, p.dupCves, AsSet(CvesForEvent(e)));
  }

  lemma LookTracksFirst(p: Pass, e: Event, lower: string -> string, files: set<(nat, string)>, cves: set<Cve>,
                        all: set<Cve>)
    requires Tracks(p, files, cves, all) && !IsFile(e) && !EventIsDuplicate(e)
    ensures Tracks(Look(p, e, lower), files, cves + AsSet(CvesForEvent(e)), all + AsSet(CvesForEvent(e)))
  {
    Absorb(p.cves, p.dupCves, AsSet(CvesForEvent(e)));
  }

  lemma LookTracks(p: Pass, front: seq<Event>, e: Event, lower: string -> string)
    requires Tracks(p, Keys(front, lower), Carried(front, false), Carried(front, true))
    ensures Tracks(Look(p, e, lower), Keys(front + [e], lower), Carried(front + [e], false), Carried(front + [e], true))
  {
    OneMoreCarried(front, e, false);
    OneMoreCarried(front, e, true);
    OneMoreKey(front, e, lower);
    var files, cves, all := Keys(front, lower), Carried(front, false), Carried(front, true);
    if IsFile(e) {
      LookTracksFile(p, e, lower, files, cves, all);
      assert cves + {} == cves && all + {} == all;
    } else if EventIsDuplicate(e) {
      LookTracksPlay(p, e, lower, files, cves, all);
      assert cves + {} == cves && files + {} == files;
    } else {
      LookTracksFirst(p, e, lower, files, cves, all);
      assert files + {} == files;
    }
  }

  /** The seen-sets are exactly what the rows looked at show and carry. */
  lemma {:induction false} SeenSetsAreTheRows(rows: seq<Event>, lower: string -> string)
    ensures Tracks(Looked(rows, lower), Keys(rows, lower), Carried(rows, false), Carried(rows, true))
  {
    if rows != [] {
      var front, last := rows[..|rows| - 1], rows[|rows| - 1];
      SeenSetsAreTheRows(front, lower);
      assert rows == front + [last];
      LookTracks(Looked(front, lower), front, last, lower);
    }
  }

  lemma PassDropsTheRedundant(rows: seq<Event>, i: nat, lower: string -> string)
    requires i < |rows|
    ensures Repeats(Looked(rows[..i], lower), rows[i], lower) <==> Redundant(rows[..i], rows[i], lower)
  {
    SeenSetsAreTheRows(rows[..i], lower);
  }

  ghost predicate IsDropped(rows: seq<Event>, lower: string -> string, id: nat) {
    exists i :: 0 <= i < |rows| && rows[i].id == id && Redundant(rows[..i], rows[i], lower)
  }

  lemma DroppedOneMore(front: seq<Event>, e: Event, lower: string -> string, id: nat)
    ensures IsDropped(front + [e], lower, id) <==> IsDropped(front, lower, id) || (e.id == id && Redundant(front, e, lower))
  {
    var rows, n := front + [e], |front|;
    assert rows[..n] == front && rows[n] == e;
    assert forall i | 0 <= i < n :: rows[i] == front[i] && rows[..i] == front[..i];
    if IsDropped(front, lower, id) {
      var i :| 0 <= i < n && front[i].id == id && Redundant(front[..i], front[i], lower);
      assert rows[i].id == id && Redundant(rows[..i], rows[i], lower);
    }
    if e.id == id && Redundant(front, e, lower) {
      assert rows[n].id == id && Redundant(rows[..n], rows[n], lower);
    }
  }

  /** Main result: the pass drops exactly the redundant rows. */
  lemma {:induction false} DropsExactlyTheRedundant(rows: seq<Event>, lower: string -> string, id: nat)
    ensures id in Looked(rows, lower).drop <==> IsDropped(rows, lower, id)
  {
    if rows != [] {
      var front, last := rows[..|rows| - 1], rows[|rows| - 1];
      DropsExactlyTheRedundant(front, lower, id);
      PassDropsTheRedundant(rows, |rows| - 1, lower);
      assert rows == front + [last];
      DroppedOneMore(front, last, lower, id);
    }
  }

  // ---------- what survives ----------

  /** The rows a pass keeps. */
  function Survivors(rows: seq<Event>, lower: string -> string): seq<Event> {
    if rows == [] then []
    else
      var front, last := rows[..|rows| - 1], rows[|rows| - 1];
      Survivors(front, lower) + if Repeats(Looked(front, lower), last, lower) then [] else [last]
  }

  ghost predicate SameContent(a: seq<Event>, b: seq<Event>, lower: string -> string) {
    Keys(a, lower) == Keys(b, lower) && Carried(a, false) == Carried(b, false) && Carried(a, true) == Carried(b, true)
  }

  lemma SameContentExtended(a: seq<Event>, b: seq<Event>, e: Event, lower: string -> string)
    requires SameContent(a, b, lower)
    ensures SameContent(a + [e], b + [e], lower)
  {
    OneMoreKey(a, e, lower);
    OneMoreKey(b, e, lower);
    OneMoreCarried(a, e, false);
    OneMoreCarried(b, e, false);
    OneMoreCarried(a, e, true);
    OneMoreCarried(b, e, true);
  }

  lemma RedundantAddsNothing(front: seq<Event>, e: Event, lower: string -> string)
    requires Redundant(front, e, lower)
    ensures SameContent(front, front + [e], lower)
  {
    OneMoreKey(front, e, lower);
    OneMoreCarried(front, e, false);
    OneMoreCarried(front, e, true);
    assert Carried(front, false) <= Carried(front, true);
  }

  /** Survivors show and carry everything the scanned rows did: a row of each file, and every id. */
  lemma {:induction false} SurvivorsCarryEverything(rows: seq<Event>, lower: string -> string)
    ensures SameContent(Survivors(rows, lower), rows, lower)
  {
    if rows != [] {
      var front, last := rows[..|rows| - 1], rows[|rows| - 1];
      SurvivorsCarryEverything(front, lower);
      assert rows[..|rows| - 1] == front && rows == front + [last];
      PassDropsTheRedundant(rows, |rows| - 1, lower);
      if Redundant(front, last, lower) {
        RedundantAddsNothing(front, last, lower);
        assert Survivors(rows, lower) == Survivors(front, lower);
      } else {
        SameContentExtended(Survivors(front, lower), front, last, lower);
      }
    }
  }

  /** A second pass over the survivors sees the same sets and drops nothing. */
  lemma {:induction false} SecondPassDropsNothing(rows: seq<Event>, lower: string -> string)
    ensures Looked(Survivors(rows, lower), lower) == Looked(rows, lower).(drop := [])
  {
    if rows != [] {
      var front, last := rows[..|rows| - 1], rows[|rows| - 1];
      SecondPassDropsNothing(front, lower);
      var kept := Survivors(front, lower);
      if !Repeats(Looked(front, lower), last, lower) {
        assert (kept + [last])[..|kept|] == kept;
      } else {
        assert Survivors(rows, lower) == kept;
      }
    }
  }

  // ---------- the same on the table ----------

  lemma {:induction false} InsertHas(e: Event, rows: seq<Event>)
    ensures forall x :: x in Insert(e, rows) <==> x in rows || x == e
    ensures |Insert(e, rows)| == |rows| + 1
  {
    if rows != [] && !Newer(rows[|rows| - 1], e) {
      InsertHas(e, rows[..|rows| - 1]);
      assert rows == rows[..|rows| - 1] + [rows[|rows| - 1]];
    }
  }

  lemma {:induction false} InsertKeepsOrder(e: Event, rows: seq<Event>)
    requires NewestFirstOrder(rows) && forall x | x in rows :: x.id != e.id
    ensures NewestFirstOrder(Insert(e, rows))
  {
    if rows != [] && !Newer(rows[|rows| - 1], e) {
      var front, last := rows[..|rows| - 1], rows[|rows| - 1];
      InsertKeepsOrder(e, front);
      InsertHas(e, front);
      assert last in rows;
      forall x | x in Insert(e, front) ensures Newer(x, last) {
        if x != e {
          var i :| 0 <= i < |front| && front[i] == x;
          assert Newer(rows[i], rows[|rows| - 1]);
        }
      }
    }
  }

  lemma {:induction false} NewestFirstHas(events: seq<Event>)
    ensures forall x :: x in NewestFirst(events) <==> x in events
    ensures |NewestFirst(events)| == |events|
  {
    if events != [] {
      var front, last := events[..|events| - 1], events[|events| - 1];
      assert events == front + [last];
      NewestFirstHas(front);
      InsertHas(last, NewestFirst(front));
    }
  }

  lemma {:induction false} NewestFirstIsOrdered(events: seq<Event>)
    requires InIdOrder(events)
    ensures NewestFirstOrder(NewestFirst(events))
  {
    if events != [] {
      var front, last := events[..|events| - 1], events[|events| - 1];
      assert events == front + [last];
      NewestFirstIsOrdered(front);
      NewestFirstHas(front);
      NewestIdIsNew(front, last);
      InsertKeepsOrder(last, NewestFirst(front));
    }
  }

  lemma NewestFirstLists(events: seq<Event>)
    requires InIdOrder(events)
    ensures forall x :: x in NewestFirst(events) <==> x in events
    ensures |NewestFirst(events)| == |events| && NewestFirstOrder(NewestFirst(events))
  {
    NewestFirstHas(events);
    NewestFirstIsOrdered(events);
  }

  lemma {:induction false} InsertAtTheEnd(e: Event, rows: seq<Event>, ids: set<nat>)
    requires forall x | x in rows :: Newer(x, e)
    ensures Insert(e, Without(rows, ids)) == Without(rows, ids) + [e]
  {
    WithoutKeepsTheRest(rows, ids);
    var kept := Without(rows, ids);
    if kept != [] {
      assert kept[|kept| - 1] in kept;
    }
  }

  /** Deleting rows commutes with ordering them. */
  lemma {:induction false} InsertWithout(e: Event, rows: seq<Event>, ids: set<nat>)
    requires NewestFirstOrder(rows)
    ensures Without(Insert(e, rows), ids) == if e.id in ids then Without(rows, ids) else Insert(e, Without(rows, ids))
  {
    if rows == [] || Newer(rows[|rows| - 1], e) {
      WithoutSnoc(rows, e, ids);
      if e.id !in ids {
        AllAreNewer(e, rows);
        InsertAtTheEnd(e, rows, ids);
      }
    } else {
      var front, last := rows[..|rows| - 1], rows[|rows| - 1];
      InsertWithout(e, front, ids);
      WithoutSnoc(Insert(e, front), last, ids);
      if last.id !in ids {
        InsertBeforeLast(e, Without(front, ids), last);
      }
    }
  }

  lemma AllAreNewer(e: Event, rows: seq<Event>)
    requires NewestFirstOrder(rows) && (rows != [] ==> Newer(rows[|rows| - 1], e))
    ensures forall x | x in rows :: Newer(x, e)
  {
    forall x | x in rows ensures Newer(x, e) {
      var i :| 0 <= i < |rows| && rows[i] == x;
      assert i < |rows| - 1 ==> Newer(rows[i], rows[|rows| - 1]);
    }
  }

  lemma InsertBeforeLast(e: Event, kept: seq<Event>, last: Event)
    requires !Newer(last, e)
    ensures Insert(e, kept + [last]) == Insert(e, kept) + [last]
  {
    assert (kept + [last])[..|kept|] == kept;
  }

  lemma {:induction false} NewestFirstWithout(events: seq<Event>, ids: set<nat>)
    requires InIdOrder(events)
    ensures NewestFirst(Without(events, ids)) == Without(NewestFirst(events), ids)
  {
    if events != [] {
      var front, last := events[..|events| - 1], events[|events| - 1];
      NewestFirstWithout(front, ids);
      NewestFirstLists(front);
      InsertWithout(last, NewestFirst(front), ids);
      if last.id !in ids {
        var kept := Without(front, ids);
        assert (kept + [last])[..|kept|] == kept;
      }
    }
  }

  lemma {:induction false} WithoutIgnores(rows: seq<Event>, ids: set<nat>, id: nat)
    requires forall x | x in rows :: x.id != id
    ensures Without(rows, ids + {id}) == Without(rows, ids)
  {
    if rows != [] {
      assert rows[|rows| - 1] in rows;
      WithoutIgnores(rows[..|rows| - 1], ids, id);
    }
  }

  lemma DroppedAreScanned(rows: seq<Event>, lower: string -> string)
    ensures forall id | id in Looked(rows, lower).drop :: exists x :: x in rows && x.id == id
  {
    forall id | id in Looked(rows, lower).drop ensures exists x :: x in rows && x.id == id {
      DropsExactlyTheRedundant(rows, lower, id);
      var i :| 0 <= i < |rows| && rows[i].id == id;
      assert rows[i] in rows;
    }
  }

  lemma {:induction false} SurvivorsAreTheRest(rows: seq<Event>, lower: string -> string)
    requires NewestFirstOrder(rows) && DistinctIds(rows)
    ensures Survivors(rows, lower) == Without(rows, AsSet(Looked(rows, lower).drop))
  {
    if rows != [] {
      var front, last := rows[..|rows| - 1], rows[|rows| - 1];
      SurvivorsAreTheRest(front, lower);
      DroppedAreScanned(front, lower);
      var dropped := Looked(front, lower).drop;
      if Repeats(Looked(front, lower), last, lower) {
        assert AsSet(dropped + [last.id]) == AsSet(dropped) + {last.id};
        WithoutIgnores(front, AsSet(dropped), last.id);
      }
    }
  }

  lemma ScannedAreDistinct(events: seq<Event>)
    requires InIdOrder(events)
    ensures DistinctIds(NewestFirst(events))
  {
    NewestFirstLists(events);
    var rows := NewestFirst(events);
    forall i, j | 0 <= i < j < |rows| ensures rows[i].id != rows[j].id {
      assert rows[i] in events && rows[j] in events && Newer(rows[i], rows[j]);
    }
  }

  /** With a scan that covers the table, what is left is what the pass keeps, in the same order. */
  lemma PurgedScan(db: Db, lower: string -> string, limit: nat)
    requires InIdOrder(db.events) && |db.events| <= limit
    ensures Scan(Purged(db, lower, limit).events, limit) == Survivors(NewestFirst(db.events), lower)
    ensures forall e :: e in Purged(db, lower, limit).events <==> e in Survivors(NewestFirst(db.events), lower)
    ensures InIdOrder(Purged(db, lower, limit).events)
  {
    var rows := NewestFirst(db.events);
    NewestFirstLists(db.events);
    ScannedAreDistinct(db.events);
    SurvivorsAreTheRest(rows, lower);
    var ids := AsSet(Looked(rows, lower).drop);
    NewestFirstWithout(db.events, ids);
    WithoutKeepsOrder(db.events, ids);
    WithoutKeepsTheRest(db.events, ids);
    WithoutKeepsTheRest(rows, ids);
    NewestFirstLists(Without(db.events, ids));
  }

  /** Main result: purging twice is purging once. */
  lemma PurgeIsIdempotent(db: Db, lower: string -> string, limit: nat)
    requires InIdOrder(db.events) && |db.events| <= limit
    ensures Purged(Purged(db, lower, limit), lower, limit) == Purged(db, lower, limit)
  {
    PurgedScan(db, lower, limit);
    SecondPassDropsNothing(NewestFirst(db.events), lower);
    assert AsSet(Looked(NewestFirst(db.events), lower).(drop := []).drop) == {};
    DeletedNothing(Purged(db, lower, limit));
  }

  lemma LastSurvivesIff(front: seq<Event>, last: Event, lower: string -> string)
    requires forall x | x in front :: x.id != last.id
    ensures last in Survivors(front + [last], lower) <==> !Redundant(front, last, lower)
  {
    var rows := front + [last];
    assert rows[..|front|] == front && rows[|front|] == last;
    PassDropsTheRedundant(rows, |front|, lower);
    SurvivorsAreRows(front, lower);
  }

  lemma {:induction false} SurvivesIff(rows: seq<Event>, i: nat, lower: string -> string)
    requires i < |rows| && DistinctIds(rows)
    ensures rows[i] in Survivors(rows, lower) <==> !Redundant(rows[..i], rows[i], lower)
  {
    var front, last := rows[..|rows| - 1], rows[|rows| - 1];
    assert rows == front + [last];
    if i == |front| {
      LastSurvivesIff(front, last, lower);
    } else {
      assert front[..i] == rows[..i] && rows[i].id != last.id;
      SurvivesIff(front, i, lower);
    }
  }

  lemma {:induction false} SurvivorsAreRows(rows: seq<Event>, lower: string -> string)
    ensures forall e | e in Survivors(rows, lower) :: e in rows
  {
    if rows != [] {
      SurvivorsAreRows(rows[..|rows| - 1], lower);
    }
  }

  lemma NewerRowsComeFirst(rows: seq<Event>, i: nat)
    requires i < |rows| && NewestFirstOrder(rows)
    ensures forall f :: f in rows[..i] <==> f in rows && Newer(f, rows[i])
  {
    forall f | f in rows && Newer(f, rows[i]) ensures f in rows[..i] {
      var j :| 0 <= j < |rows| && rows[j] == f;
      assert j < i;
      assert rows[..i][j] == f;
    }
  }

  // ---------- the table after a purge, on the columns ----------

  /** The row was received later, or at the same time under a larger id. */
  ghost predicate CameAfter(f: Event, e: Event) {
    f.received > e.received || (f.received == e.received && f.id > e.id)
  }

  ghost predicate Names(e: Event, c: Cve) {
    c in e.extracted || c in e.payload.cves || c in e.textCves
  }

  /** A repeat of something known: marked as one, or skipped or a duplicate by its status and no feed entry. */
  ghost predicate IsPlay(e: Event) {
    e.payload.duplicate || (!e.payload.feed && (e.status == Skipped || e.status == Duplicate))
  }

  ghost predicate NamesAsNoFile(e: Event, c: Cve) {
    e.payload.filename == "" && Names(e, c)
  }

  lemma CarriedOnColumns(rows: seq<Event>, plays: bool)
    ensures forall c :: c in Carried(rows, plays) <==>
                        exists f :: f in rows && NamesAsNoFile(f, c) && (plays || !IsPlay(f))
  {
    forall c ensures c in Carried(rows, plays) <==> exists f :: f in rows && NamesAsNoFile(f, c) && (plays || !IsPlay(f)) {
      assert forall f :: c in CvesForEvent(f) <==> Names(f, c);
    }
  }

  /** Main result: no id is lost. Every id that a row without a file names in its ids, its payload or its text is still
      named by such a row, and every id of a first ingest by a first ingest. */
  lemma PurgeLosesNoCve(db: Db, lower: string -> string, limit: nat, e: Event, c: Cve)
    requires InIdOrder(db.events) && |db.events| <= limit
    requires e in db.events && e.payload.filename == "" && (c in e.extracted || c in e.payload.cves || c in e.textCves)
    ensures exists f :: f in Purged(db, lower, limit).events && NamesAsNoFile(f, c) && (IsPlay(f) ==> IsPlay(e))
  {
    var rows, plays := NewestFirst(db.events), IsPlay(e);
    NewestFirstLists(db.events);
    SurvivorsCarryEverything(rows, lower);
    PurgedScan(db, lower, limit);
    CarriedOnColumns(rows, plays);
    CarriedOnColumns(Survivors(rows, lower), plays);
    assert NamesAsNoFile(e, c);
    assert c in Carried(rows, plays);
    var f :| f in Survivors(rows, lower) && NamesAsNoFile(f, c) && (plays || !IsPlay(f));
  }

  lemma RowSurvivesIff(db: Db, lower: string -> string, limit: nat, e: Event) returns (newer: seq<Event>)
    requires InIdOrder(db.events) && |db.events| <= limit && e in db.events
    ensures forall f :: f in newer <==> f in db.events && CameAfter(f, e)
    ensures e in Purged(db, lower, limit).events <==> !Redundant(newer, e, lower)
  {
    var rows := NewestFirst(db.events);
    NewestFirstLists(db.events);
    ScannedAreDistinct(db.events);
    PurgedScan(db, lower, limit);
    var i :| 0 <= i < |rows| && rows[i] == e;
    SurvivesIff(rows, i, lower);
    NewerRowsComeFirst(rows, i);
    newer := rows[..i];
  }

  /** Main result: of the rows that show one file of one source, whatever the case of its name, exactly the newest
      survives. */
  lemma ExactlyTheNewestFileRowSurvives(db: Db, lower: string -> string, limit: nat, e: Event)
    requires InIdOrder(db.events) && |db.events| <= limit && e in db.events && e.payload.filename != ""
    ensures e in Purged(db, lower, limit).events <==>
            forall f | f in db.events && f.payload.filename != "" && f.source == e.source &&
                       lower(f.payload.filename) == lower(e.payload.filename) :: !CameAfter(f, e)
  {
    var newer := RowSurvivesIff(db, lower, limit, e);
  }

  /** Some later row without a file names the id, and it is a first ingest if this row is one. */
  ghost predicate NamedLater(db: Db, e: Event, c: Cve) {
    exists f :: f in db.events && CameAfter(f, e) && NamesAsNoFile(f, c) && (IsPlay(f) ==> IsPlay(e))
  }

  /** Main result: of the other rows exactly those go that name some id and nothing that no later row names. */
  lemma RowWithoutAFileGoesIff(db: Db, lower: string -> string, limit: nat, e: Event)
    requires InIdOrder(db.events) && |db.events| <= limit && e in db.events && e.payload.filename == ""
    ensures e !in Purged(db, lower, limit).events <==>
            (exists c :: Names(e, c)) && forall c | Names(e, c) :: NamedLater(db, e, c)
  {
    var newer := RowSurvivesIff(db, lower, limit, e);
    CarriedOnColumns(newer, IsPlay(e));
    RedundantOnColumns(newer, e, lower);
    forall c ensures c in Carried(newer, IsPlay(e)) <==> NamedLater(db, e, c) {
    }
  }

  lemma RedundantOnColumns(newer: seq<Event>, e: Event, lower: string -> string)
    requires e.payload.filename == ""
    ensures Redundant(newer, e, lower) <==>
            (exists c :: Names(e, c)) && forall c | Names(e, c) :: c in Carried(newer, IsPlay(e))
  {
    assert forall c :: c in AsSet(CvesForEvent(e)) <==> Names(e, c);
    assert EventIsDuplicate(e) == IsPlay(e);
    if c :| Names(e, c) {
      assert c in AsSet(CvesForEvent(e));
    }
  }

  /** What an ingest stores is a play iff the ingest queued nothing. */
  lemma IngestedRowIsAPlayIffRecorded(db: Db, d: Delivery, allow: Cve -> bool, scans: Scans)
    requires InIdOrder(db.events) && !d.payload.duplicate && !IngestSpec(db, d, allow, scans).1.Rejected?
    ensures var (after, out) := IngestSpec(db, d, allow, scans);
            exists e :: e in after.events && e.id == out.id && (IsPlay(e) <==> out.Recorded?)
  {
    RejectedIffNothingIsInTheWindow(db, d, allow, scans);
    var (after, out) := IngestSpec(db, d, allow, scans);
    if d.payload.feed || BringsUnknown(db, d, allow, scans) {
      if FileFound(db, d, scans).Some? {
        QueuedAsTheFilesRow(db, d, allow, scans);
        var e :| e in after.events && e.id == out.id && e.status.Queued? && e.payload.duplicate == d.payload.duplicate;
        assert !IsPlay(e);
      } else {
        QueuedAsANewRow(db, d, allow, scans);
        var e :| IsQueuedRowOf(db, e, d, allow, scans) && AddsRow(db, after, e, [d.newId]);
        assert e in after.events && !IsPlay(e);
      }
    } else {
      KnownDeliveryIsRecorded(db, d, allow, scans);
      var e :| IsPlayOf(e, d, InWindow(d, allow), FileFound(db, d, scans).Some?) && AddsRow(db, after, e, []);
      assert e in after.events && IsPlay(e);
    }
  }

  /** The scan sees as many rows as its limit allows, the newest ones. */
  lemma ScannedAreTheNewest(events: seq<Event>, limit: nat)
    requires InIdOrder(events)
    ensures |Scan(events, limit)| == if |events| < limit then |events| else limit
    ensures forall e, f | e in Scan(events, limit) && f in events && f !in Scan(events, limit) :: CameAfter(e, f)
  {
    NewestFirstLists(events);
    var rows, scanned := NewestFirst(events), Scan(events, limit);
    assert forall k | 0 <= k < |scanned| :: scanned[k] == rows[k];
    forall e, f | e in scanned && f in events && f !in scanned ensures CameAfter(e, f) {
      var i :| 0 <= i < |scanned| && scanned[i] == e;
      var j :| 0 <= j < |rows| && rows[j] == f;
      assert i < |scanned| <= j;
    }
  }

  /** A row beyond the scan is never deleted. */
  lemma RowsBeyondTheScanStay(db: Db, lower: string -> string, limit: nat, e: Event)
    requires InIdOrder(db.events) && e in db.events && e !in Scan(db.events, limit)
    ensures e in Purged(db, lower, limit).events
  {
    var rows := Scan(db.events, limit);
    NewestFirstLists(db.events);
    DroppedAreScanned(rows, lower);
    WithoutKeepsTheRest(db.events, AsSet(Looked(rows, lower).drop));
    if e.id in Looked(rows, lower).drop {
      var f :| f in rows && f.id == e.id;
      UniqueById(db.events, e, f);
    }
  }
}
