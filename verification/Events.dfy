/** The `ingest_events` table as rows in id order, and the queries app/services/ingestion.py makes on it. */
module Events {
  import opened Records
  import opened Wrappers

  /** The payload keys ingestion reads. `feed` says that a feed_url or an entry_id is present. */
  datatype Payload = Payload(
    filename: string,
    originFilename: string,
    duplicate: bool,
    refresh: bool,
    feed: bool,
    cves: seq<Cve>)

  /** `textCves` are the ids a regular expression finds in `raw_text`. */
  datatype Event = Event(
    id: nat,
    source: nat,
    payload: Payload,
    textCves: seq<Cve>,
    status: EventStatus,
    extracted: seq<Cve>,
    received: int)

  ghost predicate InIdOrder(events: seq<Event>) {
    forall i, j | 0 <= i < j < |events| :: events[i].id < events[j].id
  }

  ghost predicate DistinctIds(rows: seq<Event>) {
    forall i, j | 0 <= i < j < |rows| :: rows[i].id != rows[j].id
  }

  /** `list(dict.fromkeys(items))`: the first occurrence of everything, in order. */
  function Dedupe<T(==,!new)>(items: seq<T>): (r: seq<T>)
    ensures forall x :: x in r <==> x in items
    ensures forall i, j | 0 <= i < j < |r| :: r[i] != r[j]
  {
    if items == [] then []
    else
      var front := Dedupe(items[..|items| - 1]);
      assert items == items[..|items| - 1] + [items[|items| - 1]];
      if items[|items| - 1] in front then front else front + [items[|items| - 1]]
  }

  /** `cves_for_event`: every complete id the row mentions. */
  function CvesForEvent(e: Event): seq<Cve> {
    Dedupe(e.extracted + e.payload.cves + e.textCves)
  }

  /** How many rows a source has. */
  function Rows(events: seq<Event>, source: nat): nat {
    if events == [] then 0
    else Rows(events[..|events| - 1], source) + if events[|events| - 1].source == source then 1 else 0
  }

  /** The newest `limit` rows of a source, newest first. */
  function Recent(events: seq<Event>, source: nat, limit: nat): seq<Event> {
    if events == [] || limit == 0 then []
    else
      var front, last := events[..|events| - 1], events[|events| - 1];
      if last.source == source then [last] + Recent(front, source, limit - 1) else Recent(front, source, limit)
  }

  predicate Shows(e: Event, source: nat, name: string) {
    e.source == source && e.payload.filename == name
  }

  function Ids(events: seq<Event>): set<nat> {
    set e | e in events :: e.id
  }

  /** The table without the rows whose id is in `ids`. */
  function Without(events: seq<Event>, ids: set<nat>): seq<Event> {
    if events == [] then []
    else
      var front, last := events[..|events| - 1], events[|events| - 1];
      if last.id in ids then Without(front, ids) else Without(front, ids) + [last]
  }

  /** The row with e's id is replaced by e. */
  function Replaced(events: seq<Event>, e: Event): seq<Event> {
    seq(|events|, i requires 0 <= i < |events| => if events[i].id == e.id then e else events[i])
  }

  // ---------- what the queries return ----------

  /** A row mentions what its extracted ids, its payload or its text name. */
  lemma MentionsOnColumns(e: Event, c: Cve)
    ensures c in CvesForEvent(e) <==> c in e.extracted || c in e.payload.cves || c in e.textCves
  {
  }

  lemma {:induction false} RecentAreRows(events: seq<Event>, source: nat, limit: nat)
    ensures forall e | e in Recent(events, source, limit) :: e in events && e.source == source
  {
    if events != [] && limit != 0 {
      var front := events[..|events| - 1];
      RecentAreRows(front, source, limit);
      RecentAreRows(front, source, limit - 1);
    }
  }

  /** A scan whose limit covers the source sees all of its rows. */
  lemma {:induction false} RecentCovers(events: seq<Event>, source: nat, limit: nat)
    requires Rows(events, source) <= limit
    ensures forall e | e in events && e.source == source :: e in Recent(events, source, limit)
  {
    if events != [] {
      var front, last := events[..|events| - 1], events[|events| - 1];
      assert events == front + [last];
      if limit == 0 {
        RecentCovers(front, source, 0);
      } else if last.source == source {
        RecentCovers(front, source, limit - 1);
      } else {
        RecentCovers(front, source, limit);
      }
    }
  }

  lemma OlderThanTheLast(front: seq<Event>, last: Event)
    requires InIdOrder(front + [last])
    ensures InIdOrder(front) && forall e | e in front :: e.id < last.id
  {
    var events := front + [last];
    assert forall i | 0 <= i < |front| :: events[i] == front[i];
    forall e | e in front ensures e.id < last.id {
      var i :| 0 <= i < |front| && front[i] == e;
      assert events[i].id < events[|front|].id;
    }
  }

  /** A scan sees as many rows of the source as its limit allows, and no unseen row of the source is newer than a seen one. */
  lemma {:induction false} RecentAreTheNewest(events: seq<Event>, source: nat, limit: nat)
    requires InIdOrder(events)
    ensures |Recent(events, source, limit)| == if Rows(events, source) < limit then Rows(events, source) else limit
    ensures forall e, f | e in Recent(events, source, limit) && f in events && f.source == source &&
                          f !in Recent(events, source, limit) :: f.id < e.id
  {
    if events != [] && limit != 0 {
      var front, last := events[..|events| - 1], events[|events| - 1];
      assert events == front + [last];
      OlderThanTheLast(front, last);
      RecentAreTheNewest(front, source, if last.source == source then limit - 1 else limit);
    }
  }

  lemma {:induction false} WithoutKeepsTheRest(events: seq<Event>, ids: set<nat>)
    ensures forall e :: e in Without(events, ids) <==> e in events && e.id !in ids
    ensures |Without(events, ids)| <= |events|
  {
    if events != [] {
      var front, last := events[..|events| - 1], events[|events| - 1];
      assert events == front + [last];
      WithoutKeepsTheRest(front, ids);
    }
  }

  lemma {:induction false} WithoutKeepsOrder(events: seq<Event>, ids: set<nat>)
    requires InIdOrder(events)
    ensures InIdOrder(Without(events, ids))
    ensures events != [] ==> forall e | e in Without(events, ids) :: e.id <= events[|events| - 1].id
  {
    if events != [] {
      var front, last := events[..|events| - 1], events[|events| - 1];
      WithoutKeepsOrder(front, ids);
      WithoutKeepsTheRest(front, ids);
      forall e | e in Without(front, ids) ensures e.id < last.id {
        var i :| 0 <= i < |front| && front[i] == e;
        assert events[i].id < events[|events| - 1].id;
      }
    }
  }

  /** Deleting in two rounds is deleting the union. */
  lemma {:induction false} WithoutTwice(events: seq<Event>, a: set<nat>, b: set<nat>)
    ensures Without(Without(events, a), b) == Without(events, a + b)
  {
    if events != [] {
      var front, last := events[..|events| - 1], events[|events| - 1];
      WithoutTwice(front, a, b);
      if last.id !in a {
        assert Without(events, a) == Without(front, a) + [last];
        assert (Without(front, a) + [last])[..|Without(front, a)|] == Without(front, a);
      }
    }
  }

  lemma {:induction false} WithoutNothing(events: seq<Event>)
    ensures Without(events, {}) == events
  {
    if events != [] {
      WithoutNothing(events[..|events| - 1]);
    }
  }

  lemma {:induction false} RowsOfExtended(events: seq<Event>, e: Event, source: nat)
    ensures Rows(events + [e], source) == Rows(events, source) + if e.source == source then 1 else 0
  {
    assert (events + [e])[..|events|] == events;
  }

  /** Replacing a row by one of the same source changes no row count. */
  lemma {:induction false} RowsOfReplaced(events: seq<Event>, e: Event, source: nat)
    requires forall i | 0 <= i < |events| && events[i].id == e.id :: events[i].source == e.source
    ensures Rows(Replaced(events, e), source) == Rows(events, source)
  {
    if events != [] {
      var front := events[..|events| - 1];
      RowsOfReplaced(front, e, source);
      assert Replaced(events, e)[..|events| - 1] == Replaced(front, e);
    }
  }

  lemma NewestIdIsNew(front: seq<Event>, last: Event)
    requires InIdOrder(front + [last])
    ensures last.id !in Ids(front) && Ids(front + [last]) == Ids(front) + {last.id}
  {
    var events := front + [last];
    forall e | e in front ensures e.id != last.id {
      var i :| 0 <= i < |front| && front[i] == e;
      assert events[i].id < events[|front|].id;
    }
  }

  lemma MeetOneMore(ids: set<nat>, known: set<nat>, id: nat)
    requires id !in known
    ensures |ids * (known + {id})| == |ids * known| + if id in ids then 1 else 0
  {
    if id in ids {
      assert ids * (known + {id}) == ids * known + {id};
    } else {
      assert ids * (known + {id}) == ids * known;
    }
  }

  lemma WithoutSnoc(rows: seq<Event>, e: Event, ids: set<nat>)
    ensures Without(rows + [e], ids) == Without(rows, ids) + if e.id in ids then [] else [e]
  {
    assert (rows + [e])[..|rows|] == rows;
  }

  ghost predicate OnlyFrom(events: seq<Event>, ids: set<nat>, source: nat) {
    forall e | e in events && e.id in ids :: e.source == source
  }

  lemma OnlyFromFront(front: seq<Event>, last: Event, ids: set<nat>, source: nat)
    requires OnlyFrom(front + [last], ids, source)
    ensures OnlyFrom(front, ids, source) && (last.id in ids ==> last.source == source)
  {
    assert last in front + [last];
  }

  /** Deleting rows of one source lowers its count by their number and leaves the other counts alone. */
  lemma {:induction false} RowsOfWithout(events: seq<Event>, ids: set<nat>, source: nat, other: nat)
    requires InIdOrder(events) && OnlyFrom(events, ids, source)
    ensures Rows(Without(events, ids), other) ==
            Rows(events, other) - if other == source then |ids * Ids(events)| else 0
  {
    if events == [] {
      assert ids * Ids(events) == {};
    } else {
      var front, last := events[..|events| - 1], events[|events| - 1];
      assert events == front + [last];
      OnlyFromFront(front, last, ids, source);
      RowsOfWithout(front, ids, source, other);
      NewestIdIsNew(front, last);
      MeetOneMore(ids, Ids(front), last.id);
      WithoutSnoc(front, last, ids);
      RowsOfExtended(Without(front, ids), last, other);
    }
  }
}
