/** The fallback ring (`janus/src/absurd/fallback.rs:77-127`) and its replay into
    the step overlays (`janus/src/absurd/mod.rs:419-468`). */
module Fallback {
  import opened Wrappers
  import opened Envelope
  import opened Overlay
  import opened Utf8
  import opened Truncate

  const MAX_ENTRIES: nat := 1000

  datatype Event = Event(taskId: string, blueprint: string, step: string, status: string, cache: Option<seq<Byte>>)

  /** The table, keyed by its autoincremented sequence number. */
  datatype Table = Table(rows: map<nat, Event>, next: nat)

  // --- The SQL statements ---------------------------------------------------

  function Newer(rows: map<nat, Event>, k: nat): set<nat> {
    set j | j in rows.Keys && j > k
  }

  /** `DELETE ... WHERE seq NOT IN (SELECT seq ... ORDER BY seq DESC LIMIT n)`. */
  function Newest(rows: map<nat, Event>, n: nat): map<nat, Event> {
    map k | k in rows && |Newer(rows, k)| < n :: rows[k]
  }

  /** `SELECT ... ORDER BY seq ASC`, over sequence numbers below `hi`. */
  function InOrder(rows: map<nat, Event>, hi: nat): seq<Event> {
    if hi == 0 then []
    else InOrder(rows, hi - 1) + if hi - 1 in rows then [rows[hi - 1]] else []
  }

  function TruncatedCache(cache: Option<seq<Byte>>): Option<seq<Byte>> {
    if cache.Some? then Some(Truncated(cache.value)) else None
  }

  function AfterRecord(t: Table, e: Event): Table {
    Table(Newest(t.rows[t.next := e], MAX_ENTRIES), t.next + 1)
  }

  function AfterDrain(t: Table): (Table, seq<Event>) {
    (t.(rows := map[]), InOrder(t.rows, t.next))
  }

  class FallbackDb {
    var table: Table

    constructor ()
      ensures table == Table(map[], 0)
    {
      table := Table(map[], 0);
    }

    method Record(taskId: Uuid, blueprint: string, step: string, status: string, resultCache: Option<seq<Byte>>)
      modifies this
      ensures table == AfterRecord(old(table), Event(taskId, blueprint, step, status, TruncatedCache(resultCache)))
    {
      hide Newest, Truncated;
      var cache := resultCache;
      if resultCache.Some? {
        var cut := Truncate16k(resultCache.value);
        cache := Some(cut);
      }
      var inserted := table.rows[table.next := Event(taskId, blueprint, step, status, cache)];
      table := Table(Newest(inserted, MAX_ENTRIES), table.next + 1);
    }

    method Drain() returns (events: seq<Event>)
      modifies this
      ensures (table, events) == AfterDrain(old(table))
    {
      events := InOrder(table.rows, table.next);
      table := table.(rows := map[]);
    }

    method Count() returns (n: nat)
      ensures n == |table.rows|
    {
      return |table.rows|;
    }
  }

  // --- The ring holds the last 1000 events since the last drain -------------

  function Min(a: nat, b: nat): nat {
    if a < b then a else b
  }

  function LastOf(log: seq<Event>, n: nat): seq<Event> {
    log[|log| - Min(|log|, n)..]
  }

  /** The rows are numbered from `lo` without a gap and hold the end of the log. */
  ghost predicate Holds(t: Table, lo: nat, log: seq<Event>) {
    && lo <= t.next && t.next - lo == Min(|log|, MAX_ENTRIES)
    && (forall k :: k in t.rows <==> lo <= k < t.next)
    && (forall k | lo <= k < t.next :: t.rows[k] == log[|log| - (t.next - k)])
  }

  lemma {:induction false} RangeSize(s: set<nat>, lo: nat, hi: nat)
    requires lo <= hi && forall k :: k in s <==> lo <= k < hi
    ensures |s| == hi - lo
    decreases hi - lo
  {
    if lo < hi {
      RangeSize(s - {lo}, lo + 1, hi);
    } else {
      assert s == {};
    }
  }

  lemma NewestOfRange(rows: map<nat, Event>, lo: nat, hi: nat, n: nat)
    requires lo <= hi && forall k :: k in rows <==> lo <= k < hi
    ensures forall k :: k in Newest(rows, n) <==> lo <= k < hi && hi - k <= n
  {
    forall k | lo <= k < hi
      ensures |Newer(rows, k)| == hi - 1 - k
    {
      RangeSize(Newer(rows, k), k + 1, hi);
    }
  }

  lemma RecordHolds(t: Table, lo: nat, log: seq<Event>, e: Event)
    requires Holds(t, lo, log)
    ensures Holds(AfterRecord(t, e), t.next + 1 - Min(|log| + 1, MAX_ENTRIES), log + [e])
  {
    var rows := t.rows[t.next := e];
    NewestOfRange(rows, lo, t.next + 1, MAX_ENTRIES);
  }

  /** Place `k` of the log holds the row numbered `t.next - |log| + k`. */
  lemma {:induction false} InOrderOfRange(t: Table, lo: nat, log: seq<Event>, hi: nat)
    requires Holds(t, lo, log) && lo <= hi <= t.next
    ensures var r := InOrder(t.rows, hi);
            |r| == hi - lo && forall k | 0 <= k < |r| :: r[k] == log[|log| - (t.next - lo) + k]
    decreases hi
  {
    if hi == lo {
      NothingBelow(t.rows, hi);
    } else {
      InOrderOfRange(t, lo, log, hi - 1);
    }
  }

  lemma {:induction false} NothingBelow(rows: map<nat, Event>, hi: nat)
    requires forall k | k in rows :: k >= hi
    ensures InOrder(rows, hi) == []
  {
    if hi > 0 {
      NothingBelow(rows, hi - 1);
    }
  }

  /** A record carries the event as it comes, with its cache uncut. */
  datatype RingOp = RecordOp(e: Event) | DrainOp

  function Cut(e: Event): Event {
    e.(cache := TruncatedCache(e.cache))
  }

  function Run(ops: seq<RingOp>): Table {
    if ops == [] then Table(map[], 0)
    else
      var t := Run(ops[..|ops| - 1]);
      match ops[|ops| - 1]
      case RecordOp(e) => AfterRecord(t, Cut(e))
      case DrainOp => AfterDrain(t).0
  }

  /** The events recorded since the last drain, with their caches cut. */
  function Since(ops: seq<RingOp>): seq<Event> {
    if ops == [] then []
    else
      match ops[|ops| - 1]
      case RecordOp(e) => Since(ops[..|ops| - 1]) + [Cut(e)]
      case DrainOp => []
  }

  lemma {:induction false} RunHolds(ops: seq<RingOp>) returns (lo: nat)
    ensures Holds(Run(ops), lo, Since(ops))
  {
    if ops == [] {
      return 0;
    }
    var before := ops[..|ops| - 1];
    lo := RunHolds(before);
    match ops[|ops| - 1]
    case RecordOp(e) =>
      RecordHolds(Run(before), lo, Since(before), Cut(e));
      lo := Run(before).next + 1 - Min(|Since(before)| + 1, MAX_ENTRIES);
    case DrainOp =>
      lo := Run(before).next;
  }

  /** After any records and drains, a drain returns exactly the last 1000 events
      since the previous one, oldest first, and the count is their number. */
  lemma RingHoldsLast(ops: seq<RingOp>)
    ensures AfterDrain(Run(ops)).1 == LastOf(Since(ops), 1000)
    ensures |Run(ops).rows| == Min(|Since(ops)|, 1000)
  {
    hide Run, Since, InOrder;
    var lo := RunHolds(ops);
    var t, log := Run(ops), Since(ops);
    InOrderOfRange(t, lo, log, t.next);
    RangeSize(t.rows.Keys, lo, t.next);
    EndOfLog(log, MAX_ENTRIES);
    assert AfterDrain(t).1 == LastOf(log, MAX_ENTRIES);
  }

  // --- Replay ---------------------------------------------------------------

  /** The overlay rows of every blueprint. */
  type Overlays = map<(string, RowKey), Row>

  /** How the databases answer for one event. */
  datatype Answer = Merged | Unreachable | NoPool | UpsertFails | PoolError

  datatype ReplayResult = Replayed(count: nat) | Aborted

  function StatusOf(text: string): StepStatus {
    if text == "STARTING" then Starting
    else if text == "RUNNING" then Running
    else if text == "SUSPENDED" then Suspended
    else if text == "STOPPED" then Stopped
    else if text == "COMPLETED" then Completed
    else if text == "FAILED" then Failed
    else Recorded(text)
  }

  /** The text a row's status stands for. */
  function StatusText(status: StepStatus): string {
    match status
    case Starting => "STARTING"
    case Running => "RUNNING"
    case Suspended => "SUSPENDED"
    case Stopped => "STOPPED"
    case Completed => "COMPLETED"
    case Failed => "FAILED"
    case Recorded(text) => text
  }

  /** No two texts become one status: the row still tells the event's text. */
  lemma StatusReadsBack(text: string)
    ensures StatusText(StatusOf(text)) == text
  {
  }

  /** The upsert: a new row has only a status, an old one changes only its status. */
  function Merge(rows: Overlays, e: Event): Overlays
    requires IsUuid(e.taskId)
  {
    var key := (e.blueprint, (e.taskId, e.step));
    rows[key := if key in rows then rows[key].(status := StatusOf(e.status)) else Row(StatusOf(e.status), None, "", None)]
  }

  predicate Merges(e: Event, a: Answer) {
    IsUuid(e.taskId) && a == Merged
  }

  /** The pool query fails: the replay stops, and the events after it are lost. */
  predicate Aborts(e: Event, a: Answer) {
    IsUuid(e.taskId) && a == PoolError
  }

  /** The overlays after the first `k` events. */
  function MergedInto(rows: Overlays, events: seq<Event>, answer: nat -> Answer, k: nat): Overlays
    requires k <= |events|
  {
    if k == 0 then rows
    else
      var before := MergedInto(rows, events, answer, k - 1);
      if Merges(events[k - 1], answer(k - 1)) then Merge(before, events[k - 1]) else before
  }

  function MergedCount(events: seq<Event>, answer: nat -> Answer, k: nat): nat
    requires k <= |events|
  {
    if k == 0 then 0
    else MergedCount(events, answer, k - 1) + if Merges(events[k - 1], answer(k - 1)) then 1 else 0
  }

  class Replayer {
    var rows: Overlays

    constructor (rows: Overlays)
      ensures this.rows == rows
    {
      this.rows := rows;
    }

    /** Whatever happens to the events, the ring is empty afterwards. */
    method ReplayFallback(db: FallbackDb, answer: nat -> Answer) returns (r: ReplayResult, ghost k: nat)
      modifies this, db
      ensures db.table == AfterDrain(old(db.table)).0
      ensures k <= |AfterDrain(old(db.table)).1| && rows == MergedInto(old(rows), AfterDrain(old(db.table)).1, answer, k)
      ensures forall i: nat | i < k :: !Aborts(AfterDrain(old(db.table)).1[i], answer(i))
      ensures r.Replayed? ==> k == |AfterDrain(old(db.table)).1| && r.count == MergedCount(AfterDrain(old(db.table)).1, answer, k)
      ensures r.Aborted? ==> k < |AfterDrain(old(db.table)).1| && Aborts(AfterDrain(old(db.table)).1[k], answer(k))
    {
      var events := db.Drain();
      k := 0;
      if events == [] {
        return Replayed(0), 0;
      }
      var replayed := 0;
      for i := 0 to |events|
        invariant db.table == AfterDrain(old(db.table)).0
        invariant k == i && rows == MergedInto(old(rows), events, answer, i) && replayed == MergedCount(events, answer, i)
        invariant forall j: nat | j < i :: !Aborts(events[j], answer(j))
      {
        var e := events[i];
        if IsUuid(e.taskId) {
          match answer(i) {
            case Merged =>
              var key := (e.blueprint, (e.taskId, e.step));
              var row := if key in rows then rows[key].(status := StatusOf(e.status)) else Row(StatusOf(e.status), None, "", None);
              rows := rows[key := row];
              replayed := replayed + 1;
            case PoolError =>
              return Aborted, i;
            case _ =>
          }
        }
        k := i + 1;
      }
      return Replayed(replayed), |events|;
    }
  }

  /** The row an event is about, if its task id reads as one. */
  function KeyOf(e: Event): Option<(string, RowKey)> {
    if IsUuid(e.taskId) then Some((e.blueprint, (e.taskId, e.step))) else None
  }

  /** Event `i` is merged into the row `key`. */
  predicate Writes(events: seq<Event>, answer: nat -> Answer, i: nat, key: (string, RowKey))
    requires i < |events|
  {
    Merges(events[i], answer(i)) && KeyOf(events[i]) == Some(key)
  }

  /** Rows that no event is merged into stay as they are. */
  lemma {:induction false} UntouchedRow(rows: Overlays, events: seq<Event>, answer: nat -> Answer, k: nat, key: (string, RowKey))
    requires k <= |events| && forall i: nat | i < k :: !Writes(events, answer, i, key)
    ensures var after := MergedInto(rows, events, answer, k);
            (key in after <==> key in rows) && (key in rows ==> after[key] == rows[key])
  {
    hide StatusOf, IsUuid;
    if k > 0 {
      UntouchedRow(rows, events, answer, k - 1, key);
      assert !Writes(events, answer, k - 1, key);
    }
  }

  /** The last merged event of a row decides its status, and nothing else of it. */
  lemma {:induction false} LastWriterWins(rows: Overlays, events: seq<Event>, answer: nat -> Answer, k: nat,
                                          key: (string, RowKey), i: nat)
    requires i < k <= |events| && Writes(events, answer, i, key)
    requires forall j: nat | i < j < k :: !Writes(events, answer, j, key)
    ensures var after := MergedInto(rows, events, answer, k);
            && key in after && StatusText(after[key].status) == events[i].status
            && var status := after[key].status;
               after[key] == if key in rows then rows[key].(status := status) else Row(status, None, "", None)
  {
    hide StatusOf, StatusText, IsUuid;
    if i == k - 1 {
      StatusReadsBack(events[i].status);
      WrittenRow(rows, events, answer, k - 1, key);
    } else {
      LastWriterWins(rows, events, answer, k - 1, key, i);
      assert !Writes(events, answer, k - 1, key);
    }
  }

  /** A row that exists differs from the original in its status only. */
  lemma {:induction false} WrittenRow(rows: Overlays, events: seq<Event>, answer: nat -> Answer, k: nat, key: (string, RowKey))
    requires k <= |events|
    ensures var after := MergedInto(rows, events, answer, k);
            key in after ==> var row := after[key];
              if key in rows then row == rows[key].(status := row.status) else row == Row(row.status, None, "", None)
    ensures key in rows ==> key in MergedInto(rows, events, answer, k)
  {
    hide StatusOf, IsUuid;
    if k > 0 {
      WrittenRow(rows, events, answer, k - 1, key);
    }
  }

  /** Outage to recovery: the last status recorded for a step since the last
      drain is what its row reads after the replay, as long as fewer than 1000
      events were recorded after it, the replay got that far, and this one event,
      at place `at`, was merged; whatever became of all the others. */
  lemma LastStatusSurvives(ops: seq<RingOp>, rows: Overlays, answer: nat -> Answer, k: nat, i: nat, at: nat,
                           key: (string, RowKey))
    requires i < |Since(ops)| && |Since(ops)| - i <= 1000
    requires KeyOf(Since(ops)[i]) == Some(key) && forall j: nat | i < j < |Since(ops)| :: KeyOf(Since(ops)[j]) != Some(key)
    requires at + |Since(ops)| - i == |AfterDrain(Run(ops)).1| && at < k <= |AfterDrain(Run(ops)).1| && answer(at) == Merged
    ensures var after := MergedInto(rows, AfterDrain(Run(ops)).1, answer, k);
            key in after && StatusText(after[key].status) == Since(ops)[i].status
  {
    hide *;
    RingHoldsLast(ops);
    EndOfLog(Since(ops), 1000);
    LastOfSuffix(Since(ops), AfterDrain(Run(ops)).1, rows, answer, k, i, key);
  }

  lemma EndOfLog(log: seq<Event>, n: nat)
    ensures var end := LastOf(log, n);
            |end| == Min(|log|, n) <= |log| && forall k | 0 <= k < |end| :: end[k] == log[|log| - |end| + k]
    ensures |log| <= n ==> |LastOf(log, n)| == |log|
    ensures |log| >= n ==> |LastOf(log, n)| == n
  {
  }

  lemma LastOfSuffix(log: seq<Event>, events: seq<Event>, rows: Overlays, answer: nat -> Answer, k: nat, i: nat, key: (string, RowKey))
    requires |events| <= |log| && i < |log| && |log| - i <= |events|
    requires forall n | 0 <= n < |events| :: events[n] == log[|log| - |events| + n]
    requires |events| - (|log| - i) < k <= |events| && answer(|events| - (|log| - i)) == Merged
    requires KeyOf(log[i]) == Some(key) && forall j: nat | i < j < |log| :: KeyOf(log[j]) != Some(key)
    ensures var after := MergedInto(rows, events, answer, k);
            key in after && StatusText(after[key].status) == log[i].status
  {
    hide StatusOf, StatusText, IsUuid, MergedInto;
    var start := |log| - |events|;
    forall n: nat | i - start < n < |events|
      ensures !Writes(events, answer, n, key)
    {
      assert KeyOf(log[start + n]) != Some(key);
    }
    LastWriterWins(rows, events, answer, k, key, i - start);
  }

  // --- Size -----------------------------------------------------------------

  function CacheBytes(events: seq<Event>): nat {
    if events == [] then 0
    else (if events[0].cache.Some? then |events[0].cache.value| else 0) + CacheBytes(events[1..])
  }

  /** Every cached output was cut to the budget when it was recorded. */
  lemma {:induction false} SinceIsBudgeted(ops: seq<RingOp>, i: nat)
    requires i < |Since(ops)| && Since(ops)[i].cache.Some?
    ensures |Since(ops)[i].cache.value| <= SIZE_BUDGET
  {
    hide Truncated;
    if i < |Since(ops[..|ops| - 1])| {
      SinceIsBudgeted(ops[..|ops| - 1], i);
    } else {
      AtMostBudget(ops[|ops| - 1].e.cache.value);
    }
  }

  lemma {:induction false} BytesBounded(events: seq<Event>)
    requires forall i | 0 <= i < |events| && events[i].cache.Some? :: |events[i].cache.value| <= SIZE_BUDGET
    ensures CacheBytes(events) <= |events| * SIZE_BUDGET
  {
    if events != [] {
      BytesBounded(events[1..]);
    }
  }

  /** The cached output in the ring never exceeds 16,384,000 bytes, well below
      the 50 MB the ring is meant to stay under. */
  lemma RingBytesBounded(ops: seq<RingOp>)
    ensures CacheBytes(AfterDrain(Run(ops)).1) <= 16_384_000
  {
    hide Run, AfterDrain, Since;
    RingHoldsLast(ops);
    var log, events := Since(ops), AfterDrain(Run(ops)).1;
    forall i | 0 <= i < |events| && events[i].cache.Some?
      ensures |events[i].cache.value| <= SIZE_BUDGET
    {
      SinceIsBudgeted(ops, |log| - |events| + i);
    }
    BytesBounded(events);
  }
}
