/** The in-process work queue of app/workers/queue.py.

    Poller threads, the event loop and one worker share `_pending`, an asyncio queue and the
    event statuses in the database. `State` and `Apply` describe the protocol at the grain at
    which the threads interleave; `InProcessQueue` is the object itself, and each of its
    methods is proved to perform the protocol's steps. The results are about all runs.
 */
module WorkQueue {
  import opened Records
  import opened Wrappers

  type EventId = nat

  /** Where the worker task (or `start`, which runs before it) stands. */
  datatype Worker =
    | Off
    | Opening                                      // start(): new queue visible, `_pending` not yet cleared
    | Scanning(rows: seq<EventId>, next: nat)      // _rehydrate: rows[..next] have been looked at
    | Waiting
    | Taken(id: EventId)                           // out of the queue, run_event has not loaded the row
    | Loaded(id: EventId)                          // row loaded, processing not yet committed
    | Running(id: EventId)                         // processing committed, the outcome still to come
    | Closing(id: EventId)                         // outcome committed, `_release` still to come

  datatype State = State(
    open: bool,                    // `_queue` is not None
    queue: seq<EventId>,
    pending: set<EventId>,
    inHand: multiset<EventId>,     // claimed by a thread that has not put or scheduled it yet
    callbacks: seq<EventId>,       // `_put` calls handed to the loop by call_soon_threadsafe
    worker: Worker,
    status: map<EventId, EventStatus>   // ingest_events
  )

  datatype Outcome = Closed(status: EventStatus) | Deleted | Untouched

  datatype Action =
    | Persist(id: EventId)            // an ingest commits the row as queued
    | Remove(id: EventId)             // the row is deleted by someone else
    | Claim(id: EventId)
    | Schedule(id: EventId)           // enqueue from a poller thread
    | HandPut(id: EventId)            // enqueue on the loop's own thread, or before `_loop` is set
    | RunCallback
    | BeginScan(rows: seq<EventId>)   // idle timeout
    | ScanNext
    | EndScan
    | Get
    | Load
    | MarkProcessing
    | Finish(outcome: Outcome)
    | Release
    | Stop
    | StartOpen
    | StartClear(rows: seq<EventId>)

  function PutId(s: State, id: EventId): State {
    if s.open then s.(queue := s.queue + [id]) else s
  }

  predicate InSession(s: State) {
    !s.worker.Off? && !s.worker.Opening?
  }

  /** The worker holds an id between `get` and `_release`. */
  predicate Busy(w: Worker) {
    w.Taken? || w.Loaded? || w.Running? || w.Closing?
  }

  predicate LoopIsFree(s: State) {
    !s.worker.Scanning? && !s.worker.Opening?
  }

  /** `rows` is what the query for these statuses returns, in some order. */
  ghost predicate IsQueryResult(status: map<EventId, EventStatus>, wanted: set<EventStatus>, rows: seq<EventId>) {
    && (forall i, j | 0 <= i < j < |rows| :: rows[i] != rows[j])
    && (forall id :: id in rows <==> id in status && status[id] in wanted)
  }

  ghost predicate Enabled(s: State, a: Action) {
    match a
    case Persist(_) | Remove(_) | Claim(_) => true
    case Schedule(id) => id in s.inHand && !s.worker.Off?
    case HandPut(id) => id in s.inHand
    case RunCallback => s.callbacks != [] && LoopIsFree(s)
    case BeginScan(rows) => s.worker.Waiting? && IsQueryResult(s.status, {Queued}, rows)
    case ScanNext => s.worker.Scanning? && s.worker.next < |s.worker.rows|
    case EndScan => s.worker.Scanning? && s.worker.next == |s.worker.rows|
    case Get => s.worker.Waiting? && s.queue != []
    case Load => s.worker.Taken?
    case MarkProcessing => s.worker.Loaded?
    case Finish(_) => s.worker.Running?
    case Release => s.worker.Closing?
    case Stop => LoopIsFree(s)
    case StartOpen => s.worker.Off?
    case StartClear(rows) => s.worker.Opening? && IsQueryResult(s.status, {Queued, Processing}, rows)
  }

  ghost function Apply(s: State, a: Action): State
    requires Enabled(s, a)
  {
    match a
    case Persist(id) => s.(status := s.status[id := Queued])
    case Remove(id) => s.(status := s.status - {id})
    case Claim(id) =>
      if !s.open || id in s.pending then s
      else s.(pending := s.pending + {id}, inHand := s.inHand + multiset{id})
    case Schedule(id) => s.(inHand := s.inHand - multiset{id}, callbacks := s.callbacks + [id])
    case HandPut(id) => PutId(s.(inHand := s.inHand - multiset{id}), id)
    case RunCallback => PutId(s.(callbacks := s.callbacks[1..]), s.callbacks[0])
    case BeginScan(rows) => s.(worker := Scanning(rows, 0))
    case ScanNext =>
      var id := s.worker.rows[s.worker.next];
      var s' := s.(worker := s.worker.(next := s.worker.next + 1));
      if !s.open || id in s.pending then s' else PutId(s'.(pending := s.pending + {id}), id)
    case EndScan => s.(worker := Waiting)
    case Get => s.(queue := s.queue[1..], worker := Taken(s.queue[0]))
    case Load =>
      s.(worker := if s.worker.id in s.status then Loaded(s.worker.id) else Closing(s.worker.id))
    case MarkProcessing =>
      var id := s.worker.id;
      if id in s.status then s.(worker := Running(id), status := s.status[id := Processing])
      else s.(worker := Closing(id))
    case Finish(outcome) =>
      var id := s.worker.id;
      s.(worker := Closing(id),
         status := if id !in s.status || outcome.Untouched? then s.status
                   else if outcome.Deleted? then s.status - {id}
                   else s.status[id := outcome.status])
    case Release => s.(pending := s.pending - {s.worker.id}, worker := Waiting)
    case Stop => s.(open := false, queue := [], pending := {}, worker := Off)
    case StartOpen => s.(open := true, queue := [], worker := Opening)
    case StartClear(rows) => s.(pending := {}, worker := Scanning(rows, 0))
  }

  ghost predicate ValidRun(s: State, run: seq<Action>) {
    run == [] ||
    (ValidRun(s, run[..|run| - 1]) && Enabled(After(s, run[..|run| - 1]), run[|run| - 1]))
  }

  ghost function After(s: State, run: seq<Action>): State {
    if run == [] then s
    else
      var t := After(s, run[..|run| - 1]);
      if Enabled(t, run[|run| - 1]) then Apply(t, run[|run| - 1]) else t
  }

  // ---------- `_pending` accounts for every id on its way ----------

  /** Every place an id can be between `_claim` and `_release`, with multiplicity. */
  ghost function Holders(s: State): multiset<EventId> {
    s.inHand + multiset(s.callbacks) + multiset(s.queue) +
    (if Busy(s.worker) then multiset{s.worker.id} else multiset{})
  }

  ghost predicate Accounted(s: State) {
    Holders(s) == multiset(s.pending)
  }

  /** What every reachable state satisfies: a shut queue is empty, and within a session
      `_pending` is the disjoint union of the holders. */
  ghost predicate Inv(s: State) {
    && Shape(s)
    && (InSession(s) ==> Accounted(s))
  }

  ghost predicate Shape(s: State) {
    && (s.worker.Off? <==> !s.open)
    && (s.worker.Off? ==> s.queue == [])
    && (s.worker.Scanning? ==>
          && s.worker.next <= |s.worker.rows|
          && forall i | 0 <= i < s.worker.next :: s.worker.rows[i] in s.pending)
  }

  /** No thread is half-way through `enqueue` and no callback is left over when `start` clears `_pending`. */
  ghost predicate CleanStart(s: State, a: Action) {
    a.StartClear? ==> Holders(s) == multiset{}
  }

  ghost predicate CleanRun(s: State, run: seq<Action>) {
    run == [] ||
    (CleanRun(s, run[..|run| - 1]) && CleanStart(After(s, run[..|run| - 1]), run[|run| - 1]))
  }

  lemma PendingGrows(pending: set<EventId>, id: EventId)
    requires id !in pending
    ensures multiset(pending + {id}) == multiset(pending) + multiset{id}
  {
  }

  lemma PendingShrinks(pending: set<EventId>, id: EventId)
    ensures multiset(pending - {id}) == multiset(pending)[id := 0]
  {
  }

  /** A put moves one id into the queue, wherever it came from. */
  lemma PutAddsOne(s: State, id: EventId)
    requires s.open
    ensures Holders(PutId(s, id)) == Holders(s) + multiset{id}
  {
  }

  lemma ClaimKeepsAccounts(s: State, id: EventId)
    requires Accounted(s)
    ensures Accounted(Apply(s, Claim(id)))
  {
    if id !in s.pending { PendingGrows(s.pending, id); }
  }

  lemma HandPutKeepsAccounts(s: State, id: EventId)
    requires s.open && Accounted(s) && id in s.inHand
    ensures Accounted(Apply(s, HandPut(id)))
  {
    var t := s.(inHand := s.inHand - multiset{id});
    PutAddsOne(t, id);
    assert Holders(t) + multiset{id} == Holders(s);
  }

  lemma ScheduleKeepsAccounts(s: State, id: EventId)
    requires Enabled(s, Schedule(id)) && Accounted(s)
    ensures Accounted(Apply(s, Schedule(id)))
  {
    assert s.inHand - multiset{id} + multiset{id} == s.inHand;
  }

  lemma CallbackKeepsAccounts(s: State)
    requires s.open && Accounted(s) && Enabled(s, RunCallback)
    ensures Accounted(Apply(s, RunCallback))
  {
    var t := s.(callbacks := s.callbacks[1..]);
    assert s.callbacks == [s.callbacks[0]] + s.callbacks[1..];
    PutAddsOne(t, s.callbacks[0]);
  }

  lemma ScanKeepsAccounts(s: State)
    requires s.open && Accounted(s) && Enabled(s, ScanNext)
    ensures Accounted(Apply(s, ScanNext))
  {
    var id := s.worker.rows[s.worker.next];
    if id !in s.pending {
      PendingGrows(s.pending, id);
      PutAddsOne(s.(pending := s.pending + {id}, worker := s.worker.(next := s.worker.next + 1)), id);
    }
  }

  lemma GetKeepsAccounts(s: State)
    requires Accounted(s) && Enabled(s, Get)
    ensures Accounted(Apply(s, Get))
  {
    assert s.queue == [s.queue[0]] + s.queue[1..];
  }

  lemma ReleaseKeepsAccounts(s: State)
    requires Accounted(s) && Enabled(s, Release)
    ensures Accounted(Apply(s, Release))
  {
    var id := s.worker.id;
    PendingShrinks(s.pending, id);
    assert Holders(s)[id] >= 1 && multiset(s.pending)[id] <= 1;
  }

  lemma StepKeepsShape(s: State, a: Action)
    requires Shape(s) && Enabled(s, a)
    ensures Shape(Apply(s, a))
  {
  }

  lemma StepKeepsAccounts(s: State, a: Action)
    requires Shape(s) && Enabled(s, a) && InSession(s) && Accounted(s)
    requires !a.Stop?
    ensures Accounted(Apply(s, a))
  {
    match a {
      case Claim(id) => ClaimKeepsAccounts(s, id);
      case Schedule(id) => ScheduleKeepsAccounts(s, id);
      case HandPut(id) => HandPutKeepsAccounts(s, id);
      case RunCallback => CallbackKeepsAccounts(s);
      case ScanNext => ScanKeepsAccounts(s);
      case Get => GetKeepsAccounts(s);
      case Release => ReleaseKeepsAccounts(s);
      case Persist(_) =>
      case Remove(_) =>
      case BeginScan(_) =>
      case EndScan =>
      case Load =>
      case MarkProcessing =>
      case Finish(_) =>
    }
  }

  lemma StepKeepsInv(s: State, a: Action)
    requires Inv(s) && Enabled(s, a) && CleanStart(s, a)
    ensures Inv(Apply(s, a))
  {
    StepKeepsShape(s, a);
    if InSession(s) && !a.Stop? {
      StepKeepsAccounts(s, a);
    }
  }

  lemma {:induction false} RunKeepsInv(s: State, run: seq<Action>)
    requires Inv(s) && ValidRun(s, run) && CleanRun(s, run)
    ensures Inv(After(s, run))
  {
    if run != [] {
      RunKeepsInv(s, run[..|run| - 1]);
      StepKeepsInv(After(s, run[..|run| - 1]), run[|run| - 1]);
    }
  }

  lemma Extend(s: State, run: seq<Action>, a: Action)
    requires Enabled(After(s, run), a)
    ensures After(s, run + [a]) == Apply(After(s, run), a)
    ensures ValidRun(s, run) ==> ValidRun(s, run + [a])
  {
    assert (run + [a])[..|run|] == run;
  }

  /** One more step of a run, with the states it goes through named. */
  lemma RunOne(s: State, run: seq<Action>, t: State, a: Action, u: State) returns (longer: seq<Action>)
    requires ValidRun(s, run) && After(s, run) == t && Enabled(t, a) && Apply(t, a) == u
    ensures ValidRun(s, longer) && After(s, longer) == u
    ensures longer == run + [a]
  {
    longer := run + [a];
    Extend(s, run, a);
  }

  lemma ExtendUndisturbed(s: State, run: seq<Action>, a: Action, id: EventId)
    requires Undisturbed(s, run, id) && !a.Stop? && !a.Load? && a != Remove(id)
    ensures Undisturbed(s, run + [a], id)
  {
    assert (run + [a])[..|run|] == run;
  }

  lemma RepeatsCountTwice(queue: seq<EventId>, i: nat, j: nat)
    requires i < j < |queue| && queue[i] == queue[j]
    ensures multiset(queue)[queue[i]] >= 2
  {
    assert queue == queue[..j] + [queue[j]] + queue[j + 1..];
    assert queue[..j][i] in multiset(queue[..j]);
  }

  /** Main result: within a session no id is queued twice, and the running id is not queued. */
  lemma NoIdIsQueuedOrRunTwice(s: State, run: seq<Action>, t: State)
    requires Inv(s) && ValidRun(s, run) && CleanRun(s, run)
    requires t == After(s, run) && InSession(t)
    ensures Holders(t) == multiset(t.pending)
    ensures forall i, j | 0 <= i < j < |t.queue| :: t.queue[i] != t.queue[j]
    ensures Busy(t.worker) ==> t.worker.id !in t.queue
  {
    RunKeepsInv(s, run);
    assert Accounted(t);
    forall i, j | 0 <= i < j < |t.queue| ensures t.queue[i] != t.queue[j] {
      assert multiset(t.pending)[t.queue[i]] <= 1;
      if t.queue[i] == t.queue[j] { RepeatsCountTwice(t.queue, i, j); }
    }
    if Busy(t.worker) {
      assert multiset(t.pending)[t.worker.id] <= 1;
    }
  }

  // ---------- start ----------

  lemma NothingInTheSum(a: multiset<EventId>, b: multiset<EventId>, c: multiset<EventId>)
    ensures a + b + c == multiset{} <==> a == multiset{} && b == multiset{} && c == multiset{}
  {
    var sum := a + b + c;
    if sum == multiset{} {
      forall x ensures a[x] == 0 && b[x] == 0 && c[x] == 0 {
        assert sum[x] == a[x] + b[x] + c[x] == 0;
      }
    }
  }

  lemma NothingInTheList(list: seq<EventId>)
    ensures multiset(list) == multiset{} <==> list == []
  {
    assert list != [] ==> list[0] in multiset(list);
  }

  /** `start` establishes the accounting exactly when nobody is half-way through `enqueue` at the clear. */
  lemma StartAccountsIffNobodyIsMidEnqueue(s: State, rows: seq<EventId>)
    requires Enabled(s, StartClear(rows))
    ensures Accounted(Apply(s, StartClear(rows))) <==> s.inHand == multiset{} && s.callbacks == [] && s.queue == []
  {
    var t := Apply(s, StartClear(rows));
    assert multiset(t.pending) == multiset{};
    assert Holders(t) == s.inHand + multiset(s.callbacks) + multiset(s.queue);
    NothingInTheSum(s.inHand, multiset(s.callbacks), multiset(s.queue));
    NothingInTheList(s.callbacks);
    NothingInTheList(s.queue);
  }

  /** `start` with one queued row while a callback of the previous session is still to come. */
  lemma StartBesideACallback(s: State, id: EventId) returns (run: seq<Action>)
    requires s == State(false, [], {}, multiset{}, [id], Off, map[id := Queued])
    ensures ValidRun(s, run) && After(s, run) == State(true, [id], {id}, multiset{}, [id], Scanning([id], 1), map[id := Queued])
  {
    var s1 := State(true, [], {}, multiset{}, [id], Opening, map[id := Queued]);
    var s2 := State(true, [], {}, multiset{}, [id], Scanning([id], 0), map[id := Queued]);
    var s3 := State(true, [id], {id}, multiset{}, [id], Scanning([id], 1), map[id := Queued]);
    var r1 := RunOne(s, [], s, StartOpen, s1);
    var r2 := RunOne(s, r1, s1, StartClear([id]), s2);
    run := RunOne(s, r2, s2, ScanNext, s3);
  }

  /** A callback of the previous session that survives into `start` puts its id a second time. */
  lemma StaleCallbackQueuesTwice(s: State, id: EventId)
    requires s == State(false, [], {}, multiset{}, [id], Off, map[id := Queued])
    ensures exists run :: ValidRun(s, run) && After(s, run).queue == [id, id]
  {
    var r3 := StartBesideACallback(s, id);
    var s3 := After(s, r3);
    var s4 := s3.(worker := Waiting);
    var r4 := RunOne(s, r3, s3, EndScan, s4);
    var r5 := RunOne(s, r4, s4, RunCallback, State(true, [id, id], {id}, multiset{}, [], Waiting, map[id := Queued]));
  }

  // ---------- nothing persisted is lost ----------

  /** While a scan lasts, whatever the other threads do, its rows stay claimed as it reaches them. */
  lemma {:induction false} ScanProgress(s: State, rows: seq<EventId>, run: seq<Action>)
    requires Inv(s) && s.worker == Scanning(rows, 0)
    requires ValidRun(s, run) && EndScan !in run
    ensures Inv(After(s, run)) && After(s, run).worker.Scanning? && After(s, run).worker.rows == rows
  {
    if run != [] {
      var front, a := run[..|run| - 1], run[|run| - 1];
      ScanProgress(s, rows, front);
      assert a in run;
      StepKeepsInv(After(s, front), a);
    }
  }

  /** When a scan ends, every row its query returned is claimed and on its way to the worker:
      queued, or in the hands of a thread or callback that will queue it. */
  lemma ScanClaimsEveryRow(s: State, start: Action, run: seq<Action>, id: EventId)
    requires Inv(s) && Enabled(s, start) && CleanStart(s, start)
    requires ValidRun(Apply(s, start), run) && EndScan !in run && Enabled(After(Apply(s, start), run), EndScan)
    requires id in s.status
    requires || (start.BeginScan? && s.status[id] == Queued)
             || (start.StartClear? && s.status[id] in {Queued, Processing})
    ensures var u := Apply(After(Apply(s, start), run), EndScan);
            id in u.pending && (id in u.queue || id in u.callbacks || id in u.inHand)
  {
    StepKeepsInv(s, start);
    var t := Apply(s, start);
    ScanProgress(t, start.rows, run);
    var v := After(t, run);
    assert id in start.rows;
    var i :| 0 <= i < |start.rows| && start.rows[i] == id;
    assert v.worker.rows[i] in v.pending;
    ClaimedIsHeld(v, id);
  }

  /** During a scan, what is claimed is queued or in the hands of a thread or callback. */
  lemma ClaimedIsHeld(s: State, id: EventId)
    requires Inv(s) && s.worker.Scanning? && id in s.pending
    ensures id in s.queue || id in s.callbacks || id in s.inHand
  {
    assert Accounted(s);
    assert id in multiset(s.pending);
    assert id in Holders(s);
  }

  // ---------- first in, first out ----------

  ghost function TakenAt(s: State, a: Action): seq<EventId> {
    if a.Get? && s.queue != [] then [s.queue[0]] else []
  }

  ghost function AddedAt(s: State, a: Action): seq<EventId> {
    if Enabled(s, a) && |Apply(s, a).queue| > |s.queue| then [Apply(s, a).queue[|s.queue|]] else []
  }

  ghost function TakenBy(s: State, run: seq<Action>): seq<EventId> {
    if run == [] then []
    else TakenBy(s, run[..|run| - 1]) + TakenAt(After(s, run[..|run| - 1]), run[|run| - 1])
  }

  ghost function AddedBy(s: State, run: seq<Action>): seq<EventId> {
    if run == [] then []
    else AddedBy(s, run[..|run| - 1]) + AddedAt(After(s, run[..|run| - 1]), run[|run| - 1])
  }

  lemma QueueStep(s: State, a: Action)
    requires Enabled(s, a) && !a.Stop? && !a.StartOpen?
    ensures s.queue + AddedAt(s, a) == TakenAt(s, a) + Apply(s, a).queue
  {
  }

  lemma Regroup<T>(taken: seq<T>, takenNow: seq<T>, left: seq<T>, leftNow: seq<T>, queued: seq<T>, added: seq<T>,
                   addedNow: seq<T>)
    requires taken + left == queued + added
    requires left + addedNow == takenNow + leftNow
    ensures (taken + takenNow) + leftNow == queued + (added + addedNow)
  {
    assert (taken + takenNow) + leftNow == taken + (takenNow + leftNow);
    assert taken + (left + addedNow) == (taken + left) + addedNow;
    assert (queued + added) + addedNow == queued + (added + addedNow);
  }

  /** Over any run without a stop, what the worker took followed by what is still queued
      is what was queued followed by what was put: later puts never overtake. */
  lemma {:induction false} FirstInFirstOut(s: State, run: seq<Action>)
    requires ValidRun(s, run) && Stop !in run && StartOpen !in run
    ensures TakenBy(s, run) + After(s, run).queue == s.queue + AddedBy(s, run)
  {
    if run != [] {
      var front, a := run[..|run| - 1], run[|run| - 1];
      FirstInFirstOut(s, front);
      assert a in run;
      var t := After(s, front);
      QueueStep(t, a);
      Regroup(TakenBy(s, front), TakenAt(t, a), t.queue, Apply(t, a).queue, s.queue, AddedBy(s, front), AddedAt(t, a));
    }
  }

  lemma SplitAt<T>(taken: seq<T>, left: seq<T>, queued: seq<T>, added: seq<T>, k: nat)
    requires taken + left == queued + added && k < |queued|
    ensures if k < |taken| then taken[k] == queued[k]
            else k - |taken| < |left| && left[k - |taken|] == queued[k]
  {
    assert (taken + left)[k] == (queued + added)[k];
    assert |taken| + |left| == |queued| + |added|;
  }

  /** The id at position k is the one taken after exactly k others. */
  lemma PositionIsServiceOrder(s: State, run: seq<Action>, k: nat, taken: seq<EventId>, left: seq<EventId>)
    requires ValidRun(s, run) && Stop !in run && StartOpen !in run && k < |s.queue|
    requires taken == TakenBy(s, run) && left == After(s, run).queue
    ensures if k < |taken| then taken[k] == s.queue[k]
            else k - |taken| < |left| && left[k - |taken|] == s.queue[k]
  {
    FirstInFirstOut(s, run);
    SplitAt(taken, left, s.queue, AddedBy(s, run), k);
  }

  // ---------- what becomes of an id that is taken ----------

  /** The steps of `run_event` in a stretch of a run. */
  function RunSteps(actions: seq<Action>): seq<Action> {
    if actions == [] then []
    else
      var last := actions[|actions| - 1];
      RunSteps(actions[..|actions| - 1]) + if last.Load? || last.MarkProcessing? || last.Finish? then [last] else []
  }

  /** Nobody adds or removes the row of the id that the worker is about to run or runs. */
  ghost predicate LeavesRow(s: State, a: Action) {
    s.worker.Taken? || s.worker.Loaded? || s.worker.Running? ==>
      a != Remove(s.worker.id) && (a == Persist(s.worker.id) ==> s.worker.id in s.status)
  }

  ghost predicate RowsAreLeft(s: State, run: seq<Action>) {
    run == [] ||
    (RowsAreLeft(s, run[..|run| - 1]) && LeavesRow(After(s, run[..|run| - 1]), run[|run| - 1]))
  }

  /** How far the worker is with an id, by the steps of `run_event` made since it was taken. */
  ghost predicate PhaseIs(t: State, id: EventId, hadRow: bool, steps: seq<Action>) {
    match t.worker
    case Taken(held) => held == id && steps == [] && (id in t.status <==> hadRow)
    case Loaded(held) => held == id && hadRow && steps == [Load] && id in t.status
    case Running(held) => held == id && hadRow && steps == [Load, MarkProcessing] && id in t.status
    case Closing(held) =>
      held == id && if hadRow then IsWholeRun(steps) else steps == [Load]
    case Off => false
    case Opening => false
    case Scanning(rows, next) => false
    case Waiting => false
  }

  /** The row is loaded, its processing committed, and then its one outcome. */
  predicate IsWholeRun(steps: seq<Action>) {
    |steps| == 3 && steps[0] == Load && steps[1] == MarkProcessing && steps[2].Finish?
  }

  lemma StepKeepsPhase(t: State, a: Action, id: EventId, hadRow: bool, steps: seq<Action>)
    requires PhaseIs(t, id, hadRow, steps) && Enabled(t, a) && LeavesRow(t, a) && !a.Release? && !a.Stop?
    ensures PhaseIs(Apply(t, a), id, hadRow, steps + RunSteps([a]))
  {
    assert RunSteps([a]) == if a.Load? || a.MarkProcessing? || a.Finish? then [a] else [] by {
      assert [a][..0] == [];
    }
  }

  lemma RunStepsSnoc(actions: seq<Action>, a: Action)
    ensures RunSteps(actions + [a]) == RunSteps(actions) + RunSteps([a])
  {
    assert (actions + [a])[..|actions|] == actions;
    assert [a][..0] == [];
  }

  /** From the moment an id is taken until it is released, the steps made so far are those of its phase. */
  lemma {:induction false} PhaseSinceTaken(s: State, run: seq<Action>, id: EventId)
    requires Enabled(s, Get) && s.queue[0] == id && ValidRun(Apply(s, Get), run) && RowsAreLeft(Apply(s, Get), run)
    requires Release !in run && Stop !in run
    ensures PhaseIs(After(Apply(s, Get), run), id, id in s.status, RunSteps(run))
  {
    if run != [] {
      var front, a := run[..|run| - 1], run[|run| - 1];
      assert run == front + [a] && a in run;
      PhaseSinceTaken(s, front, id);
      StepKeepsPhase(After(Apply(s, Get), front), a, id, id in s.status, RunSteps(front));
      RunStepsSnoc(front, a);
    }
  }

  /** Main result: between the taking of an id and its release, `run_event` loads the row, commits processing and then
      exactly one outcome when the row is there, and does nothing but look for it when the row is gone. */
  lemma TakenIdIsRunOnceIffItsRowIsThere(s: State, run: seq<Action>, id: EventId)
    requires Enabled(s, Get) && s.queue[0] == id && ValidRun(Apply(s, Get), run) && RowsAreLeft(Apply(s, Get), run)
    requires Release !in run && Stop !in run && Enabled(After(Apply(s, Get), run), Release)
    ensures if id in s.status then IsWholeRun(RunSteps(run)) else RunSteps(run) == [Load]
  {
    PhaseSinceTaken(s, run, id);
  }

  /** What those two commits write. */
  lemma RunCommits(s: State, a: Action)
    requires Enabled(s, a) && (a.MarkProcessing? || a.Finish?) && s.worker.id in s.status
    ensures var t, id := Apply(s, a), s.worker.id;
            && (a.MarkProcessing? ==> id in t.status && t.status[id] == Processing)
            && (a.Finish? && a.outcome.Closed? ==> id in t.status && t.status[id] == a.outcome.status)
            && (a.Finish? && a.outcome.Deleted? ==> id !in t.status)
            && (a.Finish? && a.outcome.Untouched? ==> t.status == s.status)
            && forall other | other != id :: (other in t.status <==> other in s.status) &&
                                             (other in s.status ==> t.status[other] == s.status[other])
  {
  }

  ghost function FinishedAt(s: State, a: Action): seq<EventId> {
    if a.Finish? && Busy(s.worker) then [s.worker.id] else []
  }

  /** The ids whose outcome was committed, in order. */
  ghost function FinishedBy(s: State, run: seq<Action>): seq<EventId> {
    if run == [] then []
    else FinishedBy(s, run[..|run| - 1]) + FinishedAt(After(s, run[..|run| - 1]), run[|run| - 1])
  }

  ghost function TakenWithRowAt(s: State, a: Action): seq<EventId> {
    if a.Get? && s.queue != [] && s.queue[0] in s.status then [s.queue[0]] else []
  }

  /** The ids taken from the queue while their row was there, in order. */
  ghost function TakenWithRow(s: State, run: seq<Action>): seq<EventId> {
    if run == [] then []
    else TakenWithRow(s, run[..|run| - 1]) + TakenWithRowAt(After(s, run[..|run| - 1]), run[|run| - 1])
  }

  /** The id that is about to be run or being run. */
  ghost function InService(s: State): seq<EventId> {
    if (s.worker.Taken? || s.worker.Loaded? || s.worker.Running?) && s.worker.id in s.status then [s.worker.id] else []
  }

  ghost predicate LoadedRowsExist(s: State) {
    s.worker.Loaded? || s.worker.Running? ==> s.worker.id in s.status
  }

  lemma ServiceStep(s: State, a: Action)
    requires Enabled(s, a) && LeavesRow(s, a) && LoadedRowsExist(s) && !a.Stop?
    ensures LoadedRowsExist(Apply(s, a))
    ensures InService(s) + TakenWithRowAt(s, a) == FinishedAt(s, a) + InService(Apply(s, a))
  {
  }

  /** Main result: over every run without a stop, the events whose outcome is committed, followed by the one in service,
      are exactly the ids taken while their row was there, in the order in which they were taken. */
  lemma {:induction false} FinishedInTheOrderTaken(s: State, run: seq<Action>)
    requires ValidRun(s, run) && RowsAreLeft(s, run) && Stop !in run && !Busy(s.worker)
    ensures FinishedBy(s, run) + InService(After(s, run)) == TakenWithRow(s, run)
    ensures LoadedRowsExist(After(s, run))
  {
    if run != [] {
      var front, a := run[..|run| - 1], run[|run| - 1];
      assert run == front + [a] && a in run;
      FinishedInTheOrderTaken(s, front);
      var t := After(s, front);
      ServiceStep(t, a);
      Handover(FinishedBy(s, front), FinishedAt(t, a), InService(t), InService(Apply(t, a)), TakenWithRow(s, front), TakenWithRowAt(t, a));
    }
  }

  lemma Handover<T>(done: seq<T>, doneNow: seq<T>, held: seq<T>, heldNow: seq<T>, taken: seq<T>, takenNow: seq<T>)
    requires done + held == taken && held + takenNow == doneNow + heldNow
    ensures (done + doneNow) + heldNow == taken + takenNow
  {
    assert (done + doneNow) + heldNow == done + (doneNow + heldNow);
    assert done + (held + takenNow) == (done + held) + takenNow;
  }

  // ---------- an event queued again ----------

  /** A run of the event has read the row and has not committed its outcome. */
  predicate HasLoaded(s: State, id: EventId) {
    s.worker == Loaded(id) || s.worker == Running(id)
  }

  /** The id is on its way to the worker, which has not loaded its row. */
  ghost predicate OnItsWay(s: State, id: EventId) {
    id in s.inHand || id in s.callbacks || id in s.queue || s.worker == Taken(id)
  }

  /** The request can still be served: a put or a run that will read the row is on its way, or the row says
      queued and no run that read it earlier can overwrite that. */
  ghost predicate Covered(s: State, id: EventId) {
    || OnItsWay(s, id)
    || (id in s.status && s.status[id] == Queued && !HasLoaded(s, id))
  }

  /** No thread, callback, queue or worker holds the id, and no later scan will find it. */
  ghost predicate Lost(s: State, id: EventId) {
    id !in Holders(s) && !(id in s.status && s.status[id] == Queued)
  }

  /** The queue is not stopped, the row is not deleted by others, and no run has loaded it. */
  ghost predicate Undisturbed(s: State, run: seq<Action>, id: EventId) {
    run == [] ||
    var t, a := After(s, run[..|run| - 1]), run[|run| - 1];
    && Undisturbed(s, run[..|run| - 1], id)
    && !a.Stop? && a != Remove(id)
    && (a.Load? && t.worker.Taken? ==> t.worker.id != id)
  }

  lemma CoveredIsNotRunning(s: State, id: EventId)
    requires Inv(s) && InSession(s) && Covered(s, id)
    ensures !HasLoaded(s, id)
  {
    assert multiset(s.pending)[id] <= 1;
  }

  /** An id on its way stays on its way, unless its row is loaded. */
  lemma StepKeepsOnItsWay(s: State, a: Action, id: EventId)
    requires Shape(s) && InSession(s) && Enabled(s, a) && OnItsWay(s, id)
    requires !a.Stop? && (a.Load? ==> s.worker.id != id)
    ensures OnItsWay(Apply(s, a), id)
  {
    assert s.open;
    assert s.callbacks != [] ==> s.callbacks == [s.callbacks[0]] + s.callbacks[1..];
    assert s.queue != [] ==> s.queue == [s.queue[0]] + s.queue[1..];
  }

  lemma StepKeepsCovered(s: State, a: Action, id: EventId)
    requires Inv(s) && InSession(s) && Enabled(s, a) && Covered(s, id)
    requires !a.Stop? && a != Remove(id) && (a.Load? ==> s.worker.id != id)
    ensures Covered(Apply(s, a), id) && InSession(Apply(s, a))
  {
    CoveredIsNotRunning(s, id);
    if OnItsWay(s, id) {
      StepKeepsOnItsWay(s, a, id);
    }
  }

  /** Whatever runs next, a covered event stays on its way until a run loads its row. */
  lemma {:induction false} RequeuedEventStaysCovered(s: State, run: seq<Action>, id: EventId)
    requires Inv(s) && InSession(s) && Covered(s, id)
    requires ValidRun(s, run) && Undisturbed(s, run, id)
    ensures Inv(After(s, run)) && InSession(After(s, run)) && Covered(After(s, run), id)
  {
    if run != [] {
      var front, a := run[..|run| - 1], run[|run| - 1];
      RequeuedEventStaysCovered(s, front, id);
      StepKeepsInv(After(s, front), a);
      StepKeepsCovered(After(s, front), a, id);
    }
  }

  /** Some continuation loses a request for the event that is made now. */
  ghost predicate CanBeLost(s: State, id: EventId) {
    exists run :: ValidRun(Apply(s, Persist(id)), run) && Undisturbed(Apply(s, Persist(id)), run, id)
                  && Lost(After(Apply(s, Persist(id)), run), id)
  }

  /** From the running event to its release: the final commit replaces the queued status. */
  lemma FinishLoses(s: State, t: State, run: seq<Action>, id: EventId) returns (longer: seq<Action>)
    requires ValidRun(s, run) && Undisturbed(s, run, id) && After(s, run) == t
    requires Inv(t) && t.worker == Running(id) && id in t.status
    ensures ValidRun(s, longer) && Undisturbed(s, longer, id) && Lost(After(s, longer), id)
  {
    assert id in Holders(t) && multiset(t.pending)[id] <= 1;
    var u := t.(worker := Closing(id), status := t.status[id := Done]);
    var v := u.(worker := Waiting, pending := u.pending - {id});
    var r1 := RunOne(s, run, t, Finish(Closed(Done)), u);
    ExtendUndisturbed(s, run, Finish(Closed(Done)), id);
    longer := RunOne(s, r1, u, Release, v);
    ExtendUndisturbed(s, r1, Release, id);
    assert Lost(v, id);
  }

  /** Queueing an event while its run is under way can be lost: the claim is refused and the run's commits replace the
      queued status. */
  lemma RequeueWhileRunningIsLost(s: State, id: EventId)
    requires Inv(s) && s.worker == Running(id)
    ensures CanBeLost(s, id)
  {
    var t := Apply(s, Persist(id));
    StepKeepsInv(s, Persist(id));
    assert id in Holders(t);
    var r1 := RunOne(t, [], t, Claim(id), t);
    ExtendUndisturbed(t, [], Claim(id), id);
    var run := FinishLoses(t, t, r1, id);
  }

  /** The same between the loading of the row and the commit that marks it processing. */
  lemma RequeueAfterLoadingIsLost(s: State, id: EventId)
    requires Inv(s) && s.worker == Loaded(id)
    ensures CanBeLost(s, id)
  {
    var t := Apply(s, Persist(id));
    StepKeepsInv(s, Persist(id));
    assert id in Holders(t);
    var u := t.(worker := Running(id), status := t.status[id := Processing]);
    var r1 := RunOne(t, [], t, Claim(id), t);
    ExtendUndisturbed(t, [], Claim(id), id);
    var r2 := RunOne(t, r1, t, MarkProcessing, u);
    ExtendUndisturbed(t, r1, MarkProcessing, id);
    StepKeepsInv(t, MarkProcessing);
    var run := FinishLoses(t, u, r2, id);
  }

  /** Main result: a row set to queued within a session is never lost before a run loads it, whatever runs next,
      exactly when no run of that event has the row loaded already. */
  lemma RequeueIsNeverLostIffNotLoaded(s: State, id: EventId)
    requires Inv(s) && InSession(s)
    ensures CanBeLost(s, id) <==> HasLoaded(s, id)
  {
    var t := Apply(s, Persist(id));
    StepKeepsInv(s, Persist(id));
    if s.worker == Running(id) {
      RequeueWhileRunningIsLost(s, id);
    } else if s.worker == Loaded(id) {
      RequeueAfterLoadingIsLost(s, id);
    } else {
      forall run | ValidRun(t, run) && Undisturbed(t, run, id) ensures !Lost(After(t, run), id) {
        RequeuedEventStaysCovered(t, run, id);
      }
    }
  }

  // ---------- the object ----------

  ghost function Scans(n: nat): seq<Action> {
    if n == 0 then [] else Scans(n - 1) + [ScanNext]
  }

  lemma OneMoreScan(s: State, n: nat)
    requires Enabled(After(s, Scans(n)), ScanNext)
    ensures After(s, Scans(n + 1)) == Apply(After(s, Scans(n)), ScanNext)
  {
    assert Scans(n + 1) == Scans(n) + [ScanNext];
    Extend(s, Scans(n), ScanNext);
  }

  ghost function FirstRowsPut(s: State, rows: seq<EventId>, n: nat): State
    requires n <= |rows|
  {
    s.(queue := rows[..n], pending := IdsOf(rows[..n]), worker := Scanning(rows, n))
  }

  function IdsOf(ids: seq<EventId>): set<EventId> {
    set id | id in ids
  }

  lemma PutNextRow(s: State, rows: seq<EventId>, n: nat)
    requires s.open && n < |rows| && rows[n] !in rows[..n]
    ensures Enabled(FirstRowsPut(s, rows, n), ScanNext)
    ensures Apply(FirstRowsPut(s, rows, n), ScanNext) == FirstRowsPut(s, rows, n + 1)
  {
    assert rows[..n + 1] == rows[..n] + [rows[n]];
    assert IdsOf(rows[..n + 1]) == IdsOf(rows[..n]) + {rows[n]};
  }

  /** A scan of a new queue puts all its rows, in the order of the query. */
  lemma {:induction false} FirstScan(s: State, rows: seq<EventId>, n: nat)
    requires s.open && s.queue == [] && s.pending == {} && s.worker == Scanning(rows, 0) && n <= |rows|
    requires forall i, j | 0 <= i < j < |rows| :: rows[i] != rows[j]
    ensures After(s, Scans(n)) == FirstRowsPut(s, rows, n)
  {
    if n == 0 {
      assert rows[..0] == [] && IdsOf([]) == {};
    } else {
      FirstScan(s, rows, n - 1);
      PutNextRow(s, rows, n - 1);
      OneMoreScan(s, n - 1);
    }
  }

  /** `InProcessQueue`: each method performs steps of the protocol. What the other threads hold
      (`inHand`) and what the database says (`status`) are the protocol's, not the object's. */
  class InProcessQueue {
    var queue: Option<seq<EventId>>
    var pending: set<EventId>
    var callbacks: seq<EventId>
    var worker: Worker

    ghost predicate Valid()
      reads this
    {
      queue.None? <==> worker.Off?
    }

    ghost function View(inHand: multiset<EventId>, status: map<EventId, EventStatus>): State
      reads this
    {
      State(queue.Some?, if queue.Some? then queue.value else [], pending, inHand, callbacks, worker, status)
    }

    constructor ()
      ensures Valid() && queue == None && pending == {} && callbacks == [] && worker == Off
    {
      queue, pending, callbacks, worker := None, {}, [], Off;
    }

    method Claim(id: EventId, ghost inHand: multiset<EventId>, ghost status: map<EventId, EventStatus>)
      returns (ok: bool)
      requires Valid()
      modifies this`pending
      ensures Valid() && (ok <==> queue.Some? && id !in old(pending))
      ensures View(if ok then inHand + multiset{id} else inHand, status) ==
              Apply(old(View(inHand, status)), Action.Claim(id))
    {
      if queue.None? || id in pending {
        return false;
      }
      pending := pending + {id};
      ok := true;
    }

    method Put(id: EventId, ghost inHand: multiset<EventId>, ghost status: map<EventId, EventStatus>)
      requires Valid()
      modifies this`queue
      ensures Valid() && View(inHand, status) == PutId(old(View(inHand, status)), id)
      ensures queue == if old(queue).Some? then Some(old(queue).value + [id]) else None
    {
      if queue.None? {
        return;
      }
      queue := Some(queue.value + [id]);
    }

    method Release(ghost inHand: multiset<EventId>, ghost status: map<EventId, EventStatus>)
      requires Valid() && worker.Closing?
      modifies this`pending, this`worker
      ensures Valid() && View(inHand, status) == Apply(old(View(inHand, status)), Action.Release)
      ensures pending == old(pending) - {old(worker).id} && worker == Waiting
    {
      pending := pending - {worker.id};
      worker := Waiting;
    }

    /** Both halves of `enqueue` without interruption: one claim, then at most one put. */
    method Enqueue(id: EventId, onLoopThread: bool, ghost inHand: multiset<EventId>,
                   ghost status: map<EventId, EventStatus>)
      requires Valid()
      modifies this`pending, this`queue, this`callbacks
      ensures Valid() && worker == old(worker)
      ensures var s := old(View(inHand, status));
              var t := Apply(s, Action.Claim(id));
              View(inHand, status) ==
              if t == s then s else Apply(t, if onLoopThread then HandPut(id) else Schedule(id))
      ensures var claims := old(queue).Some? && id !in old(pending);
              && pending == old(pending) + (if claims then {id} else {})
              && queue == (if claims && onLoopThread then Some(old(queue).value + [id]) else old(queue))
              && callbacks == old(callbacks) + if claims && !onLoopThread then [id] else []
    {
      var claimed := Claim(id, inHand, status);
      if !claimed {
        return;
      }
      assert inHand + multiset{id} - multiset{id} == inHand;
      if !onLoopThread {
        callbacks := callbacks + [id];
        return;
      }
      Put(id, inHand, status);
    }

    method RunNextCallback(ghost inHand: multiset<EventId>, ghost status: map<EventId, EventStatus>)
      requires Valid() && callbacks != [] && !worker.Scanning? && !worker.Opening?
      modifies this`queue, this`callbacks
      ensures Valid() && View(inHand, status) == Apply(old(View(inHand, status)), RunCallback)
      ensures callbacks == old(callbacks)[1..]
      ensures queue == if old(queue).Some? then Some(old(queue).value + [old(callbacks)[0]]) else None
    {
      var id := callbacks[0];
      callbacks := callbacks[1..];
      Put(id, inHand, status);
    }

    method GetNext(ghost inHand: multiset<EventId>, ghost status: map<EventId, EventStatus>) returns (id: EventId)
      requires Valid() && worker.Waiting? && queue.value != []
      modifies this`queue, this`worker
      ensures Valid() && View(inHand, status) == Apply(old(View(inHand, status)), Get)
      ensures id == old(queue).value[0]
    {
      id := queue.value[0];
      queue := Some(queue.value[1..]);
      worker := Taken(id);
    }

    /** One turn of the loop in `_rehydrate`: claim the row, and put it if the claim succeeded. */
    method ScanRow(ghost inHand: multiset<EventId>, ghost status: map<EventId, EventStatus>)
      requires Valid() && worker.Scanning? && worker.next < |worker.rows|
      modifies this`pending, this`queue, this`worker
      ensures Valid() && View(inHand, status) == Apply(old(View(inHand, status)), ScanNext)
      ensures worker == old(worker).(next := old(worker).next + 1)
    {
      var id := worker.rows[worker.next];
      worker := worker.(next := worker.next + 1);
      if queue.Some? && id !in pending {
        pending := pending + {id};
        queue := Some(queue.value + [id]);
      }
    }

    /** One row of the scan, as the next step of the protocol's run. */
    method RehydrateRow(rows: seq<EventId>, i: nat, ghost s: State, ghost inHand: multiset<EventId>,
                        ghost status: map<EventId, EventStatus>)
      requires Valid() && i < |rows| && worker == Scanning(rows, i)
      requires View(inHand, status) == After(s, Scans(i))
      modifies this`pending, this`queue, this`worker
      ensures Valid() && worker == Scanning(rows, i + 1)
      ensures View(inHand, status) == After(s, Scans(i + 1))
    {
      OneMoreScan(s, i);
      ScanRow(inHand, status);
    }

    method Rehydrate(rows: seq<EventId>, ghost inHand: multiset<EventId>, ghost status: map<EventId, EventStatus>)
      requires Valid() && worker == Scanning(rows, 0)
      modifies this`pending, this`queue, this`worker
      ensures Valid() && worker == Scanning(rows, |rows|)
      ensures View(inHand, status) == After(old(View(inHand, status)), Scans(|rows|))
    {
      ghost var s := View(inHand, status);
      for i := 0 to |rows|
        invariant Valid() && worker == Scanning(rows, i)
        invariant View(inHand, status) == After(s, Scans(i))
      {
        RehydrateRow(rows, i, s, inHand, status);
      }
    }

    method OpenQueue(ghost inHand: multiset<EventId>, ghost status: map<EventId, EventStatus>)
      requires Valid() && worker.Off?
      modifies this`queue, this`worker
      ensures Valid() && worker == Opening
      ensures View(inHand, status) == Apply(old(View(inHand, status)), StartOpen)
    {
      queue := Some([]);
      worker := Opening;
    }

    method ClearPending(rows: seq<EventId>, ghost inHand: multiset<EventId>, ghost status: map<EventId, EventStatus>)
      requires Valid() && worker.Opening? && IsQueryResult(status, {Queued, Processing}, rows)
      modifies this`pending, this`worker
      ensures Valid() && worker == Scanning(rows, 0)
      ensures View(inHand, status) == Apply(old(View(inHand, status)), StartClear(rows))
    {
      pending := {};
      worker := Scanning(rows, 0);
    }

    method Start(rows: seq<EventId>, ghost inHand: multiset<EventId>, ghost status: map<EventId, EventStatus>)
      requires Valid() && worker.Off? && IsQueryResult(status, {Queued, Processing}, rows)
      modifies this
      ensures Valid()
      ensures var s := Apply(Apply(old(View(inHand, status)), StartOpen), StartClear(rows));
              View(inHand, status) == After(s, Scans(|rows|)).(worker := Waiting)
      ensures queue == Some(rows) && pending == IdsOf(rows) && callbacks == old(callbacks) && worker == Waiting
    {
      FirstScan(Apply(Apply(View(inHand, status), StartOpen), StartClear(rows)), rows, |rows|);
      assert rows[..|rows|] == rows;
      OpenQueue(inHand, status);
      ClearPending(rows, inHand, status);
      Rehydrate(rows, inHand, status);
      worker := Waiting;
    }

    method Stop(ghost inHand: multiset<EventId>, ghost status: map<EventId, EventStatus>)
      requires Valid() && !worker.Scanning? && !worker.Opening?
      modifies this
      ensures Valid() && View(inHand, status) == Apply(old(View(inHand, status)), Action.Stop)
      ensures queue == None && pending == {} && worker == Off && callbacks == old(callbacks)
    {
      queue := None;
      pending := {};
      worker := Off;
    }
  }
}
