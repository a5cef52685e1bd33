/**
 * The demo data generator (backend/utils/dataGenerator.js): a singleton
 * that saves random entries on a timer, in bulk or as a fixed set of
 * backdated test rows, and tells its listeners about each random entry.
 *
 * The timer runtime is the `Timers` class below; the database is an
 * `EntryTable`. Every database statement takes a flag saying whether the
 * database answers, every random entry takes its `Draw`, and every listener
 * is known by its identity, with the set of listeners that throw passed in.
 */
module DataGenerator {
  import opened Wrappers
  import opened JsText
  import opened Houses
  import opened Ledger

  /** A listener callback, known by its identity (`!==` compares callbacks by reference). */
  type ListenerId = nat

  /** The record sent to listeners; `timestampMs` is `new Date()` in milliseconds. */
  datatype EntryData = EntryData(
    id: int, house: string, points: int, reason: Option<string>, timestampMs: int, kind: string)

  const NewEntryKind: string := "new_entry"

  /** One listener invocation, and whether that listener threw. */
  datatype Call = Call(listener: ListenerId, data: EntryData, threw: bool)

  /** What `getStatus()` reports. */
  datatype Status = Status(isRunning: bool, listenersCount: nat, intervalId: bool)

  /** The largest delay `setInterval` honours; outside 1..TimeoutMax, and for NaN, it uses 1 ms. */
  const TimeoutMax: int := 0x7FFF_FFFF

  function EffectiveDelay(delay: Num): (ms: int)
    ensures 1 <= ms <= TimeoutMax
    ensures delay.Int? && 1 <= delay.n <= TimeoutMax ==> ms == delay.n
  {
    if delay.Int? && 1 <= delay.n <= TimeoutMax then delay.n else 1
  }

  /** `intervalMinutes * 2 * 1000`, with JavaScript's conversion of the operand to a number. */
  function IntervalMs(intervalMinutes: JsValue): Num {
    match ToNumber(intervalMinutes)
    case Int(n) => Int(n * 2 * 1000)
    case NaN => NaN
  }

  /** The record of one listener notification round: every listener once, in order. */
  function Notices(listeners: seq<ListenerId>, data: EntryData, throwing: set<ListenerId>): (calls: seq<Call>)
    ensures |calls| == |listeners|
    ensures forall i :: 0 <= i < |calls| ==>
      calls[i].listener == listeners[i] && calls[i].data == data && calls[i].threw == (listeners[i] in throwing)
  {
    seq(|listeners|, i requires 0 <= i < |listeners| => Call(listeners[i], data, listeners[i] in throwing))
  }

  /**
   * The interval timers of the runtime: the handles in use, each with its
   * period in milliseconds. Handles are never reused and never 0, so a held
   * handle is truthy.
   */
  class Timers {
    var active: map<nat, int>
    var next: nat

    ghost predicate Valid()
      reads this
    {
      next >= 1 && forall h :: h in active ==> 1 <= h < next
    }

    constructor()
      ensures Valid() && active == map[]
    {
      active := map[];
      next := 1;
    }

    /** `setInterval(callback, delay)`: a fresh handle, now active with the delay the runtime uses. */
    method SetInterval(delay: Num) returns (h: nat)
      requires Valid()
      modifies this
      ensures Valid()
      ensures h !in old(active) && h >= 1
      ensures active == old(active)[h := EffectiveDelay(delay)]
    {
      h := next;
      active := active[h := EffectiveDelay(delay)];
      next := next + 1;
    }

    /** `clearInterval(h)`: the handle is no longer active. */
    method ClearInterval(h: nat)
      requires Valid()
      modifies this
      ensures Valid()
      ensures active == old(active) - {h}
    {
      active := active - {h};
    }
  }

  /** One try of `generateAndSaveEntry`: the random draw, the clock, and whether the database answers. */
  datatype Attempt = Attempt(draw: Draw, nowMs: int, storeUp: bool)

  /** The record a successful attempt produces when the database gives it `id`. */
  function Announced(a: Attempt, id: int): (d: EntryData)
    ensures d.id == id && d.timestampMs == a.nowMs && d.kind == NewEntryKind
    ensures var e := GenerateRandomEntry(a.draw); d.house == e.house && d.points == e.points && d.reason == e.reason
  {
    var e := GenerateRandomEntry(a.draw);
    EntryData(id, e.house, e.points, e.reason, a.nowMs, NewEntryKind)
  }

  /** The row a successful attempt appends when the database gives it `id`; the database clock counts whole seconds. */
  function SavedRow(a: Attempt, id: int): Entry
  {
    var e := GenerateRandomEntry(a.draw);
    Entry(id, e.house, e.points, e.reason, a.nowMs / 1000)
  }

  /** The records the first `n` attempts return, ids handed out from `firstId` on: one per attempt that reached the database. */
  function BulkRecords(attempts: seq<Attempt>, n: nat, firstId: int): seq<EntryData>
    requires n <= |attempts|
  {
    if n == 0 then []
    else
      var prev := BulkRecords(attempts, n - 1, firstId);
      var a := attempts[n - 1];
      prev + if a.storeUp then [Announced(a, firstId + |prev|)] else []
  }

  /** The rows the same attempts append. */
  function BulkRows(attempts: seq<Attempt>, n: nat, firstId: int): seq<Entry>
    requires n <= |attempts|
  {
    if n == 0 then []
    else
      var prev := BulkRows(attempts, n - 1, firstId);
      var a := attempts[n - 1];
      prev + if a.storeUp then [SavedRow(a, firstId + |prev|)] else []
  }

  /** The listener calls made for a list of records: one round per record. */
  function BulkCalls(records: seq<EntryData>, listeners: seq<ListenerId>, throwing: set<ListenerId>): seq<Call> {
    if records == [] then []
    else BulkCalls(records[..|records| - 1], listeners, throwing) + Notices(listeners, records[|records| - 1], throwing)
  }

  /** The number of the first `n` attempts that reached the database. */
  function Successes(attempts: seq<Attempt>, n: nat): nat
    requires n <= |attempts|
  {
    if n == 0 then 0 else Successes(attempts, n - 1) + if attempts[n - 1].storeUp then 1 else 0
  }

  /**
   * A bulk run returns one record per attempt that reached the database, in
   * order, with consecutive ids from `firstId`, and one row per record with
   * the same id, house, points and reason; failed attempts leave no trace.
   */
  lemma {:induction false} BulkRecordsSpec(attempts: seq<Attempt>, n: nat, firstId: int)
    requires n <= |attempts|
    ensures |BulkRecords(attempts, n, firstId)| == |BulkRows(attempts, n, firstId)| == Successes(attempts, n) <= n
    ensures forall k :: 0 <= k < |BulkRecords(attempts, n, firstId)| ==>
      var d := BulkRecords(attempts, n, firstId)[k];
      var e := BulkRows(attempts, n, firstId)[k];
      && d.id == e.id == firstId + k
      && d.house == e.house && d.points == e.points && d.reason == e.reason
      && IsHouse(d.house) && d.points != 0
  {
    if n > 0 {
      BulkRecordsSpec(attempts, n - 1, firstId);
    }
  }

  /** What one more attempt adds to the records, the rows and the listener calls of a bulk run. */
  lemma BulkAdvance(attempts: seq<Attempt>, i: nat, firstId: int, records: seq<EntryData>,
                    r: Result<EntryData, StoreError>, base: seq<Entry>, before: seq<Entry>, after: seq<Entry>,
                    c: seq<Call>, listeners: seq<ListenerId>, throwing: set<ListenerId>)
    requires i < |attempts|
    requires records == BulkRecords(attempts, i, firstId)
    requires before == base + BulkRows(attempts, i, firstId)
    requires r.Success? <==> attempts[i].storeUp
    requires r.Success? ==> r.value == Announced(attempts[i], firstId + |records|)
    requires r.Success? ==> after == before + [SavedRow(attempts[i], firstId + |records|)]
    requires r.Success? ==> c == Notices(listeners, r.value, throwing)
    requires r.Failure? ==> after == before
    ensures BulkRecords(attempts, i + 1, firstId) == records + if r.Success? then [r.value] else []
    ensures after == base + BulkRows(attempts, i + 1, firstId)
    ensures r.Success? ==>
      BulkCalls(records + [r.value], listeners, throwing) == BulkCalls(records, listeners, throwing) + c
  {
    BulkNext(attempts, i, firstId);
    var prev := BulkRows(attempts, i, firstId);
    if r.Success? {
      var row := SavedRow(attempts[i], firstId + |records|);
      assert after == base + (prev + [row]);
      BulkCallsStep(records, r.value, listeners, throwing);
    }
  }

  /** The records and the rows of one more attempt, both given the id that follows the records so far. */
  lemma BulkNext(attempts: seq<Attempt>, i: nat, firstId: int)
    requires i < |attempts|
    ensures var a, p := attempts[i], |BulkRecords(attempts, i, firstId)|;
      && BulkRecords(attempts, i + 1, firstId) == BulkRecords(attempts, i, firstId) + (if a.storeUp then [Announced(a, firstId + p)] else [])
      && BulkRows(attempts, i + 1, firstId) == BulkRows(attempts, i, firstId) + (if a.storeUp then [SavedRow(a, firstId + p)] else [])
  {
    BulkLengths(attempts, i, firstId);
  }

  lemma {:induction false} BulkLengths(attempts: seq<Attempt>, n: nat, firstId: int)
    requires n <= |attempts|
    ensures |BulkRecords(attempts, n, firstId)| == |BulkRows(attempts, n, firstId)|
  {
    if n > 0 {
      BulkLengths(attempts, n - 1, firstId);
    }
  }

  lemma BulkCallsStep(records: seq<EntryData>, d: EntryData, listeners: seq<ListenerId>, throwing: set<ListenerId>)
    ensures BulkCalls(records + [d], listeners, throwing) == BulkCalls(records, listeners, throwing) + Notices(listeners, d, throwing)
  {
    assert (records + [d])[..|records|] == records;
  }

  /**
   * The test fixtures of `generateTestData`: house, points, reason, and how
   * many minutes before now the row is backdated to.
   */
  datatype Fixture = Fixture(house: string, points: int, reason: string, minutesAgo: int)

  const Fixtures: seq<Fixture> := [
    Fixture("Gryffindor", 25, "Recent: Brave deed", 2),
    Fixture("Slytherin", -15, "Recent: Caught cheating", 1),
    Fixture("Ravenclaw", 40, "Hour ago: Brilliant answer", 30),
    Fixture("Hufflepuff", 20, "Hour ago: Helping others", 45),
    Fixture("Gryffindor", 35, "Day ago: Excellent essay", 120),
    Fixture("Slytherin", 30, "Day ago: Perfect potion", 180)
  ]

  /** Whether the INSERT and then the UPDATE of one fixture reach the database. */
  datatype FixtureRun = FixtureRun(saveUp: bool, updateUp: bool)

  /**
   * The rows the first `n` fixtures append, ids handed out from `firstId`
   * on: a fixture whose INSERT fails leaves nothing, one whose UPDATE fails
   * keeps the time of its INSERT, and the others are backdated.
   */
  function FixtureRows(runs: seq<FixtureRun>, n: nat, firstId: int, now: int): seq<Entry>
    requires n <= |runs| && n <= |Fixtures|
  {
    if n == 0 then []
    else
      var prev := FixtureRows(runs, n - 1, firstId, now);
      prev + FixtureRow(n - 1, runs[n - 1], firstId + |prev|, now)
  }

  /** The row fixture `i` leaves when its INSERT is given `id`. */
  function FixtureRow(i: nat, run: FixtureRun, id: int, now: int): seq<Entry>
    requires i < |Fixtures|
  {
    var f := Fixtures[i];
    if !run.saveUp then []
    else [Entry(id, f.house, f.points, Some(f.reason), if run.updateUp then now - SecondsPerMinute * f.minutesAgo else now)]
  }

  /**
   * When every statement of `generateTestData` reaches the database, the
   * fixtures are appended in order with consecutive ids, each backdated by
   * its number of minutes.
   */
  lemma {:induction false} AllFixturesSaved(runs: seq<FixtureRun>, n: nat, firstId: int, now: int)
    requires n <= |runs| && n <= |Fixtures|
    requires forall i :: 0 <= i < |runs| ==> runs[i] == FixtureRun(true, true)
    ensures var rows := FixtureRows(runs, n, firstId, now);
      && |rows| == n
      && forall k :: 0 <= k < |rows| ==>
        rows[k] == Entry(firstId + k, Fixtures[k].house, Fixtures[k].points, Some(Fixtures[k].reason),
                         now - SecondsPerMinute * Fixtures[k].minutesAgo)
  {
    if n > 0 {
      AllFixturesSaved(runs, n - 1, firstId, now);
    }
  }

  /** Every fixture names a house and fits the columns, so only an unreachable database stops its INSERT. */
  lemma FixtureFits(i: nat, up: bool)
    requires i < |Fixtures|
    ensures InsertError(Fixtures[i].house, Fixtures[i].points, Some(Fixtures[i].reason), up) ==
      if up then None else Some(Unavailable)
  {
    assert Names == ["Gryffindor", "Slytherin", "Ravenclaw", "Hufflepuff"];
  }

  /** Restamping the row just appended, whose id is above every other, changes only that row. */
  lemma RestampLast(rows: seq<Entry>, e: Entry, ts: int)
    requires forall x :: x in rows ==> x.id < e.id
    ensures Restamp(rows + [e], e.id, ts) == rows + [e.(timestamp := ts)]
  {
    var r := Restamp(rows + [e], e.id, ts);
    forall i | 0 <= i < |rows| ensures r[i] == rows[i] {
      assert (rows + [e])[i] == rows[i] && rows[i] in rows;
    }
  }

  /**
   * The generator: whether it runs, the handle of its timer, and its
   * listeners in registration order, over the database and timer runtime it
   * uses.
   */
  class Generator {
    var isRunning: bool
    var intervalId: Option<nat>
    var listeners: seq<ListenerId>
    const store: EntryTable
    const timers: Timers

    /** It runs exactly when it holds a handle, and a held handle is an active timer. */
    ghost predicate Valid()
      reads this, store, timers
    {
      && store.Valid()
      && timers.Valid()
      && (isRunning <==> intervalId.Some?)
      && (intervalId.Some? ==> intervalId.value in timers.active)
    }

    /** `new DataGenerator()`: stopped, no timer, no listeners. */
    constructor(store: EntryTable, timers: Timers)
      requires store.Valid() && timers.Valid()
      ensures Valid()
      ensures !isRunning && intervalId == None && listeners == []
      ensures this.store == store && this.timers == timers
    {
      isRunning := false;
      intervalId := None;
      listeners := [];
      this.store := store;
      this.timers := timers;
    }

    /** `getStatus()`. */
    function GetStatus(): (s: Status)
      reads this, store, timers
      ensures s.isRunning == isRunning && s.listenersCount == |listeners|
      ensures s.intervalId <==> intervalId.Some?
      ensures Valid() ==> (s.intervalId <==> s.isRunning)
    {
      Status(isRunning, |listeners|, intervalId.Some?)
    }

    /** `addListener(callback)`: registered last, even when already registered. */
    method AddListener(l: ListenerId)
      modifies this
      ensures listeners == old(listeners) + [l]
      ensures isRunning == old(isRunning) && intervalId == old(intervalId)
    {
      listeners := listeners + [l];
    }

    /** `removeListener(callback)`: every registration of it goes, the others stay in order. */
    method RemoveListener(l: ListenerId)
      modifies this
      ensures listeners == Filter(old(listeners), (x: ListenerId) => x != l)
      ensures l !in listeners
      ensures forall x :: x != l ==> (x in listeners <==> x in old(listeners))
      ensures isRunning == old(isRunning) && intervalId == old(intervalId)
    {
      listeners := Filter(listeners, (x: ListenerId) => x != l);
    }

    /**
     * `notifyListeners(data)`: each listener is called once, in order; one
     * that throws is caught and the next is still called.
     */
    method NotifyListeners(data: EntryData, throwing: set<ListenerId>) returns (calls: seq<Call>)
      ensures |calls| == |listeners|
      ensures forall i :: 0 <= i < |calls| ==>
        calls[i].listener == listeners[i] && calls[i].data == data && calls[i].threw == (listeners[i] in throwing)
    {
      calls := [];
      var i := 0;
      while i < |listeners|
        invariant 0 <= i <= |listeners|
        invariant |calls| == i
        invariant forall k :: 0 <= k < i ==>
          calls[k].listener == listeners[k] && calls[k].data == data && calls[k].threw == (listeners[k] in throwing)
      {
        var threw := listeners[i] in throwing;
        calls := calls + [Call(listeners[i], data, threw)];
        i := i + 1;
      }
    }

    /**
     * `generateAndSaveEntry()`: saves a random entry, and only once it is
     * saved tells every listener about it and returns its record; when the
     * save fails it rethrows and no listener hears of it.
     */
    method GenerateAndSaveEntry(a: Attempt, throwing: set<ListenerId>)
      returns (r: Result<EntryData, StoreError>, calls: seq<Call>)
      requires store.Valid()
      modifies store
      ensures store.Valid()
      ensures r.Failure? <==> !a.storeUp
      ensures r.Failure? ==> r.error == Unavailable && calls == [] && store.rows == old(store.rows)
      ensures r.Success? ==> r.value == Announced(a, old(store.nextId)) && calls == Notices(listeners, r.value, throwing)
      ensures r.Success? ==> store.rows == old(store.rows) + [SavedRow(a, old(store.nextId))]
      ensures store.nextId == old(store.nextId) + if r.Success? then 1 else 0
    {
      var e := GenerateRandomEntry(a.draw);
      var saved := store.Save(e.house, e.points, e.reason, a.nowMs / 1000, a.storeUp);
      if saved.Failure? {
        r, calls := Failure(saved.error), [];
        return;
      }
      var data := EntryData(saved.value, e.house, e.points, e.reason, a.nowMs, NewEntryKind);
      calls := NotifyListeners(data, throwing);
      r := Success(data);
    }

    /**
     * `start(intervalMinutes = 1)`: nothing when already running; otherwise
     * runs, makes one entry straight away, and installs one timer of
     * `intervalMinutes * 2 * 1000` ms. The first entry is not awaited, so
     * its failure does not change what `start` does.
     */
    method Start(intervalMinutes: JsValue, a: Attempt, throwing: set<ListenerId>) returns (calls: seq<Call>)
      requires Valid()
      modifies this, store, timers
      ensures Valid()
      ensures listeners == old(listeners)
      ensures old(isRunning) ==>
        && isRunning && intervalId == old(intervalId)
        && timers.active == old(timers.active) && store.rows == old(store.rows) && calls == []
      ensures !old(isRunning) ==>
        var minutes := if intervalMinutes == Undefined then Number(1) else intervalMinutes;
        && isRunning && intervalId.Some? && intervalId.value !in old(timers.active)
        && timers.active == old(timers.active)[intervalId.value := EffectiveDelay(IntervalMs(minutes))]
        && store.rows == old(store.rows) + (if a.storeUp then [SavedRow(a, old(store.nextId))] else [])
        && calls == (if a.storeUp then Notices(listeners, Announced(a, old(store.nextId)), throwing) else [])
    {
      calls := [];
      if isRunning {
        return;
      }
      var minutes := if intervalMinutes == Undefined then Number(1) else intervalMinutes;
      isRunning := true;
      var first;
      first, calls := GenerateAndSaveEntry(a, throwing);
      var h := timers.SetInterval(IntervalMs(minutes));
      intervalId := Some(h);
    }

    /** One firing of the timer `start` installed: the same as `generateAndSaveEntry()`, its outcome unobserved. */
    method Tick(a: Attempt, throwing: set<ListenerId>) returns (calls: seq<Call>)
      requires Valid() && isRunning
      modifies store
      ensures Valid()
      ensures store.rows == old(store.rows) + (if a.storeUp then [SavedRow(a, old(store.nextId))] else [])
      ensures calls == (if a.storeUp then Notices(listeners, Announced(a, old(store.nextId)), throwing) else [])
    {
      var r;
      r, calls := GenerateAndSaveEntry(a, throwing);
    }

    /** `stop()`: nothing when stopped; otherwise stops, cancels the timer and drops its handle. */
    method Stop()
      requires Valid()
      modifies this, timers
      ensures Valid()
      ensures !isRunning && intervalId == None
      ensures listeners == old(listeners)
      ensures old(isRunning) ==> timers.active == old(timers.active) - {old(intervalId).value}
      ensures !old(isRunning) ==> timers.active == old(timers.active)
    {
      if !isRunning {
        return;
      }
      isRunning := false;
      if intervalId.Some? {
        timers.ClearInterval(intervalId.value);
        intervalId := None;
      }
    }

    /**
     * `generateBulkEntries(count = 10)`: `count` attempts in a row; a failed
     * attempt is logged and skipped, and the records of the others are
     * returned in order.
     */
    method GenerateBulkEntries(count: JsValue, attempts: seq<Attempt>, throwing: set<ListenerId>)
      returns (records: seq<EntryData>, calls: seq<Call>)
      requires Valid()
      requires |attempts| == BulkIterations(count)
      modifies store
      ensures Valid()
      ensures records == BulkRecords(attempts, |attempts|, old(store.nextId))
      ensures store.rows == old(store.rows) + BulkRows(attempts, |attempts|, old(store.nextId))
      ensures calls == BulkCalls(records, listeners, throwing)
    {
      records, calls := SaveAttempts(attempts, throwing);
    }

    /** The loop of `generateBulkEntries`: one `generateAndSaveEntry` per attempt, in order. */
    method SaveAttempts(attempts: seq<Attempt>, throwing: set<ListenerId>)
      returns (records: seq<EntryData>, calls: seq<Call>)
      requires Valid()
      modifies store
      ensures Valid()
      ensures records == BulkRecords(attempts, |attempts|, old(store.nextId))
      ensures store.rows == old(store.rows) + BulkRows(attempts, |attempts|, old(store.nextId))
      ensures calls == BulkCalls(records, listeners, throwing)
    {
      records, calls := [], [];
      ghost var firstId := store.nextId;
      var i := 0;
      while i < |attempts|
        invariant 0 <= i <= |attempts|
        invariant store.Valid()
        invariant records == BulkRecords(attempts, i, firstId)
        invariant store.rows == old(store.rows) + BulkRows(attempts, i, firstId)
        invariant store.nextId == firstId + |records|
        invariant calls == BulkCalls(records, listeners, throwing)
      {
        records, calls := SaveAttempt(attempts, i, throwing, firstId, old(store.rows), records, calls);
        i := i + 1;
      }
    }

    /** One turn of `generateBulkEntries`' loop: attempt `i` extends the records, the rows and the calls of the turns before it. */
    method SaveAttempt(attempts: seq<Attempt>, i: nat, throwing: set<ListenerId>, ghost firstId: int, ghost base: seq<Entry>,
                       records: seq<EntryData>, calls: seq<Call>)
      returns (records': seq<EntryData>, calls': seq<Call>)
      requires store.Valid() && i < |attempts|
      requires records == BulkRecords(attempts, i, firstId)
      requires store.rows == base + BulkRows(attempts, i, firstId)
      requires store.nextId == firstId + |records|
      requires calls == BulkCalls(records, listeners, throwing)
      modifies store
      ensures store.Valid()
      ensures records' == BulkRecords(attempts, i + 1, firstId)
      ensures store.rows == base + BulkRows(attempts, i + 1, firstId)
      ensures store.nextId == firstId + |records'|
      ensures calls' == BulkCalls(records', listeners, throwing)
    {
      ghost var before := store.rows;
      var r, c := GenerateAndSaveEntry(attempts[i], throwing);
      BulkAdvance(attempts, i, firstId, records, r, base, before, store.rows, c, listeners, throwing);
      records', calls' := records, calls;
      if r.Success? {
        records' := records + [r.value];
        calls' := calls + c;
      }
    }

    /**
     * `generateTestData()`: for each fixture in turn, an INSERT and then an
     * UPDATE that backdates the new row; a fixture whose statement fails is
     * logged and the next one goes ahead. Listeners hear of none of them.
     */
    method GenerateTestData(now: int, runs: seq<FixtureRun>)
      requires Valid() && |runs| == |Fixtures|
      modifies store
      ensures Valid()
      ensures store.rows == old(store.rows) + FixtureRows(runs, |runs|, old(store.nextId), now)
    {
      ghost var firstId := store.nextId;
      var i := 0;
      while i < |Fixtures|
        invariant 0 <= i <= |Fixtures| && Valid()
        invariant store.rows == old(store.rows) + FixtureRows(runs, i, firstId, now)
        invariant store.nextId == firstId + |FixtureRows(runs, i, firstId, now)|
      {
        ghost var prev := FixtureRows(runs, i, firstId, now);
        SaveFixture(i, now, runs[i]);
        assert FixtureRows(runs, i + 1, firstId, now) == prev + FixtureRow(i, runs[i], firstId + |prev|, now);
        i := i + 1;
      }
    }

    /**
     * One turn of `generateTestData`'s loop: the INSERT of fixture `i`, then,
     * when it worked, the UPDATE that backdates the new row.
     */
    method SaveFixture(i: nat, now: int, run: FixtureRun)
      requires store.Valid() && i < |Fixtures|
      modifies store
      ensures store.Valid()
      ensures store.rows == old(store.rows) + FixtureRow(i, run, old(store.nextId), now)
      ensures store.nextId == old(store.nextId) + |FixtureRow(i, run, old(store.nextId), now)|
    {
      var f := Fixtures[i];
      FixtureFits(i, run.saveUp);
      var saved := store.Save(f.house, f.points, Some(f.reason), now, run.saveUp);
      if saved.Success? {
        ghost var e := Entry(saved.value, f.house, f.points, Some(f.reason), now);
        var ts := now - SecondsPerMinute * f.minutesAgo;
        var updated := store.SetTimestamp(saved.value, ts, run.updateUp);
        if run.updateUp {
          RestampLast(old(store.rows), e, ts);
        }
      }
    }
  }

  /** How many times `for (let i = 0; i < count; i++)` runs, `count` defaulting to 10 and compared as a number. */
  function BulkIterations(count: JsValue): (n: nat)
    ensures count == Undefined ==> n == 10
    ensures count != Undefined ==> (n > 0 <==> ToNumber(count).Int? && ToNumber(count).n > 0)
    ensures count != Undefined && ToNumber(count).Int? && ToNumber(count).n > 0 ==> n == ToNumber(count).n
  {
    if count == Undefined then 10
    else match ToNumber(count)
      case Int(c) => if c > 0 then c else 0
      case NaN => 0
  }
}
