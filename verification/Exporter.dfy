/**
  The audit exporter's cursor, `internal/wetland/footprint/exporter.go`, with the ordering and
  limit of `Logger.Query` in `internal/wetland/footprint/logger.go`.

  An event is its id.  The log is insert-only.  Ids are drawn from a sequence, but a transaction that
  commits late makes its event visible behind ones with greater ids, so any fresh id may appear.
*/
module Exporter {

  type Log = seq<int>

  datatype Outcome = QueryFails | PostFails | Acknowledged

  datatype State = State(log: Log, lastID: int, acked: seq<seq<int>>)

  datatype Action = Append(id: int) | Tick(outcome: Outcome)

  const EXPORT_LIMIT := 200

  // ---------------------------------------------------------------- the query

  /** The page size `Logger.Query` uses for a requested limit. */
  function PageSize(limit: int): nat {
    if limit <= 0 || limit > 200 then 50 else limit
  }

  /** The log, which is kept in increasing order, with one more event. */
  function Insert(log: Log, id: int): Log {
    if log == [] || log[|log| - 1] < id then log + [id]
    else Insert(log[..|log| - 1], id) + [log[|log| - 1]]
  }

  /** `ORDER BY id DESC LIMIT n`, on a log in increasing order. */
  function Page(log: Log, size: nat): seq<int> {
    seq(if |log| < size then |log| else size, i requires 0 <= i < |log| => log[|log| - 1 - i])
  }

  function Newer(events: seq<int>, lastID: int): seq<int> {
    if events == [] then []
    else
      var before, id := Newer(events[..|events| - 1], lastID), events[|events| - 1];
      if id > lastID then before + [id] else before
  }

  function Cursor(events: seq<int>, lastID: int): int {
    if events == [] then lastID
    else
      var before, id := Cursor(events[..|events| - 1], lastID), events[|events| - 1];
      if id > before then id else before
  }

  function Batch(log: Log, lastID: int): seq<int> {
    Newer(Page(log, PageSize(EXPORT_LIMIT)), lastID)
  }

  // ---------------------------------------------------------------- the step relation

  predicate Increasing(log: Log) {
    forall i, j | 0 <= i < j < |log| :: log[i] < log[j]
  }

  predicate Enabled(s: State, a: Action) {
    a.Append? ==> a.id > 0 && a.id !in s.log
  }

  function Apply(s: State, a: Action): State {
    match a
    case Append(id) => s.(log := Insert(s.log, id))
    case Tick(outcome) =>
      var batch := Batch(s.log, s.lastID);
      if outcome != Acknowledged || batch == [] then s
      else s.(lastID := Cursor(batch, s.lastID), acked := s.acked + [batch])
  }

  const INIT := State([], 0, [])

  function Exec(schedule: seq<Action>): State {
    if schedule == [] then INIT
    else
      var s, a := Exec(schedule[..|schedule| - 1]), schedule[|schedule| - 1];
      if Enabled(s, a) then Apply(s, a) else s
  }

  // ---------------------------------------------------------------- one batch

  ghost predicate Descending(events: seq<int>) {
    forall i, j | 0 <= i < j < |events| :: events[i] > events[j]
  }

  lemma {:induction false} NewerKeepsExactlyNewer(events: seq<int>, lastID: int)
    ensures forall id :: id in Newer(events, lastID) <==> id in events && id > lastID
    ensures Descending(events) ==> Descending(Newer(events, lastID))
  {
    if events == [] {
    } else {
      var before, last := events[..|events| - 1], events[|events| - 1];
      NewerKeepsExactlyNewer(before, lastID);
      assert events == before + [last];
      if Descending(events) {
        var newer := Newer(before, lastID);
        assert Descending(before);
        forall k | 0 <= k < |newer| ensures newer[k] > last {
          assert newer[k] in newer;
          var i :| 0 <= i < |before| && before[i] == newer[k];
          assert events[i] == newer[k];
        }
      }
    }
  }

  lemma {:induction false} CursorIsMaximum(events: seq<int>, lastID: int)
    ensures Cursor(events, lastID) == lastID || Cursor(events, lastID) in events
    ensures Cursor(events, lastID) >= lastID
    ensures forall id | id in events :: id <= Cursor(events, lastID)
  {
    if events == [] {
    } else {
      var before, last := events[..|events| - 1], events[|events| - 1];
      CursorIsMaximum(before, lastID);
      assert events == before + [last];
    }
  }

  /** How many ids of the log are at most `lastID`. */
  function Position(log: Log, lastID: int): nat {
    if log == [] then 0
    else Position(log[..|log| - 1], lastID) + (if log[|log| - 1] <= lastID then 1 else 0)
  }

  /** Events beyond the cursor. */
  function Waiting(s: State): int {
    |s.log| - Position(s.log, s.lastID)
  }

  lemma {:induction false} PositionSplits(log: Log, lastID: int)
    requires Increasing(log)
    ensures Position(log, lastID) <= |log|
    ensures forall i | 0 <= i < |log| :: log[i] <= lastID <==> i < Position(log, lastID)
  {
    if log == [] {
    } else {
      PositionSplits(log[..|log| - 1], lastID);
    }
  }

  lemma PageContents(log: Log, size: nat)
    requires Increasing(log)
    ensures Descending(Page(log, size))
    ensures forall i | 0 <= i < |log| :: log[i] in Page(log, size) <==> i >= |log| - size
    ensures forall id | id in Page(log, size) :: id in log
  {
    var page := Page(log, size);
    forall i | 0 <= i < |log| ensures log[i] in page <==> i >= |log| - size {
      if i >= |log| - size {
        assert page[|log| - 1 - i] == log[i];
      }
    }
  }

  /** The batch holds the newest `EXPORT_LIMIT` events beyond the cursor, newest first, each once. */
  lemma BatchContents(log: Log, lastID: int)
    requires Increasing(log)
    ensures Descending(Batch(log, lastID))
    ensures forall i | 0 <= i < |log| ::
      log[i] in Batch(log, lastID) <==> i >= Position(log, lastID) && i >= |log| - EXPORT_LIMIT
    ensures forall id | id in Batch(log, lastID) :: id in log && id > lastID
  {
    PageContents(log, PageSize(EXPORT_LIMIT));
    NewerKeepsExactlyNewer(Page(log, PageSize(EXPORT_LIMIT)), lastID);
    PositionSplits(log, lastID);
  }

  // ---------------------------------------------------------------- what every step keeps

  /** `id` is in an acknowledged batch. */
  ghost predicate Sent(s: State, id: int) {
    exists b :: 0 <= b < |s.acked| && id in s.acked[b]
  }

  ghost predicate Inv(s: State) {
    && Increasing(s.log)
    && (forall id | id in s.log :: id > 0)
    && (s.lastID == 0 || s.lastID in s.log)
    && (forall b, id | 0 <= b < |s.acked| && id in s.acked[b] :: id in s.log && id <= s.lastID)
    && (forall b | 0 <= b < |s.acked| :: Descending(s.acked[b]))
    && (forall b, c, id | 0 <= b < c < |s.acked| && id in s.acked[b] :: id !in s.acked[c])
  }

  lemma {:induction false} InsertedOne(log: Log, id: int)
    requires Increasing(log) && id !in log
    ensures Increasing(Insert(log, id))
    ensures forall x :: x in Insert(log, id) <==> x in log || x == id
  {
    if log == [] || log[|log| - 1] < id {
    } else {
      var before, last := log[..|log| - 1], log[|log| - 1];
      assert log == before + [last];
      InsertedOne(before, id);
      var inserted := Insert(before, id);
      forall i | 0 <= i < |inserted| ensures inserted[i] < last {
        assert inserted[i] in inserted;
        if inserted[i] in before {
          var k :| 0 <= k < |before| && before[k] == inserted[i];
          assert log[k] < log[|log| - 1];
        }
      }
    }
  }

  lemma AppendKeepsInv(s: State, id: int)
    requires Inv(s) && Enabled(s, Append(id))
    ensures Inv(Apply(s, Append(id)))
  {
    InsertedOne(s.log, id);
  }

  lemma AckedIsBehind(s: State, b: nat, id: int)
    requires Inv(s) && b < |s.acked| && id in s.acked[b]
    ensures id in s.log && id <= s.lastID
  {
  }

  /** A batch beyond the cursor joins the acknowledged ones. */
  lemma AckKeepsInv(s: State, batch: seq<int>, cursor: int)
    requires Inv(s) && Descending(batch) && cursor in s.log && cursor >= s.lastID
    requires forall id | id in batch :: id in s.log && s.lastID < id <= cursor
    ensures Inv(s.(lastID := cursor, acked := s.acked + [batch]))
  {
    var acked := s.acked + [batch];
    forall b, id | 0 <= b < |acked| && id in acked[b] ensures id in s.log && id <= cursor {
      if b < |s.acked| {
        AckedIsBehind(s, b, id);
      } else {
        assert acked[b] == batch;
      }
    }
    forall b, c, id | 0 <= b < c < |acked| && id in acked[b] ensures id !in acked[c] {
      assert acked[b] == s.acked[b] && id in s.acked[b];
      if c < |s.acked| {
        assert acked[c] == s.acked[c];
      } else {
        assert acked[c] == batch;
        AckedIsBehind(s, b, id);
      }
    }
  }

  lemma TickKeepsInv(s: State, outcome: Outcome)
    requires Inv(s)
    ensures Inv(Apply(s, Tick(outcome))) && s.lastID <= Apply(s, Tick(outcome)).lastID
  {
    var batch := Batch(s.log, s.lastID);
    if outcome == Acknowledged && batch != [] {
      BatchContents(s.log, s.lastID);
      CursorIsMaximum(batch, s.lastID);
      assert batch[0] in batch;
      AckKeepsInv(s, batch, Cursor(batch, s.lastID));
    }
  }

  lemma StepKeepsInv(s: State, a: Action)
    requires Inv(s) && Enabled(s, a)
    ensures Inv(Apply(s, a)) && s.lastID <= Apply(s, a).lastID
  {
    match a {
      case Append(id) => AppendKeepsInv(s, id);
      case Tick(outcome) => TickKeepsInv(s, outcome);
    }
  }

  /** No event up to the cursor was skipped. */
  ghost predicate Complete(s: State) {
    forall id | id in s.log && id <= s.lastID :: Sent(s, id)
  }

  /** An acknowledged tick that found more than a page of events beyond the cursor. */
  predicate Overflows(s: State, a: Action) {
    a == Tick(Acknowledged) && Waiting(s) > EXPORT_LIMIT
  }

  /** An event that becomes visible behind the cursor. */
  predicate ArrivesLate(s: State, a: Action) {
    a.Append? && Enabled(s, a) && a.id < s.lastID
  }

  lemma AppendStaysCompleteIff(s: State, id: int)
    requires Inv(s) && Enabled(s, Append(id))
    ensures Complete(Apply(s, Append(id))) <==> Complete(s) && !(id < s.lastID)
  {
    var t := Apply(s, Append(id));
    InsertedOne(s.log, id);
    assert forall x :: Sent(t, x) <==> Sent(s, x);
    assert !Sent(s, id);
  }

  lemma StepStaysCompleteIff(s: State, a: Action)
    requires Inv(s) && Enabled(s, a)
    ensures Complete(Apply(s, a)) <==> Complete(s) && !Overflows(s, a) && !ArrivesLate(s, a)
  {
    match a {
      case Append(id) =>
        AppendStaysCompleteIff(s, id);
      case Tick(outcome) =>
        BatchContents(s.log, s.lastID);
        PositionSplits(s.log, s.lastID);
        if Apply(s, a) != s {
          TickStaysCompleteIff(s);
        } else if outcome == Acknowledged && s.log != [] {
          assert s.log[|s.log| - 1] !in Batch(s.log, s.lastID);
        }
    }
  }

  lemma AckedOneMore(s: State, batch: seq<int>, cursor: int, id: int)
    ensures Sent(s.(lastID := cursor, acked := s.acked + [batch]), id) <==> Sent(s, id) || id in batch
  {
    var acked := s.acked + [batch];
    if id in batch {
      assert acked[|s.acked|] == batch;
    }
    if b :| 0 <= b < |s.acked| && id in s.acked[b] {
      assert acked[b] == s.acked[b];
    }
  }

  /** A batch that holds everything beyond the old cursor skips nothing. */
  lemma WholeBatchStaysComplete(s: State, batch: seq<int>, cursor: int)
    requires s.lastID <= cursor && forall id | id in batch :: id > s.lastID
    requires forall id | id in s.log && s.lastID < id <= cursor :: id in batch
    ensures Complete(s.(lastID := cursor, acked := s.acked + [batch])) <==> Complete(s)
  {
    forall id ensures Sent(s.(lastID := cursor, acked := s.acked + [batch]), id) <==> Sent(s, id) || id in batch {
      AckedOneMore(s, batch, cursor, id);
    }
  }

  lemma TickStaysCompleteIff(s: State)
    requires Inv(s) && Batch(s.log, s.lastID) != []
    ensures Complete(Apply(s, Tick(Acknowledged))) <==> Complete(s) && Waiting(s) <= EXPORT_LIMIT
  {
    var t, batch := Apply(s, Tick(Acknowledged)), Batch(s.log, s.lastID);
    BatchContents(s.log, s.lastID);
    CursorIsMaximum(batch, s.lastID);
    PositionSplits(s.log, s.lastID);
    if Waiting(s) <= EXPORT_LIMIT {
      forall id | id in s.log && id > s.lastID ensures id in batch {
        var i :| 0 <= i < |s.log| && s.log[i] == id;
      }
      WholeBatchStaysComplete(s, batch, t.lastID);
    } else {
      var skipped := s.log[Position(s.log, s.lastID)];
      assert s.log[|s.log| - 1] in batch;
      AckedOneMore(s, batch, t.lastID, skipped);
      assert skipped in t.log && skipped <= t.lastID && !Sent(t, skipped);
    }
  }

  // ---------------------------------------------------------------- whole runs

  lemma {:induction false} ExecKeepsInv(schedule: seq<Action>)
    ensures Inv(Exec(schedule))
  {
    if schedule == [] {
    } else {
      ExecKeepsInv(schedule[..|schedule| - 1]);
      var s, a := Exec(schedule[..|schedule| - 1]), schedule[|schedule| - 1];
      if Enabled(s, a) {
        StepKeepsInv(s, a);
      }
    }
  }

  /** The cursor never moves back. */
  lemma {:induction false} CursorIsMonotone(schedule: seq<Action>, n: nat)
    requires n <= |schedule|
    ensures Exec(schedule[..n]).lastID <= Exec(schedule).lastID
  {
    if n < |schedule| {
      var before := schedule[..|schedule| - 1];
      CursorIsMonotone(before, n);
      assert before[..n] == schedule[..n];
      ExecKeepsInv(before);
      var a := schedule[|schedule| - 1];
      if Enabled(Exec(before), a) {
        StepKeepsInv(Exec(before), a);
      }
    } else {
      assert schedule[..n] == schedule;
    }
  }

  lemma ExecOneMore(schedule: seq<Action>, a: Action)
    ensures var s := Exec(schedule); Exec(schedule + [a]) == if Enabled(s, a) then Apply(s, a) else s
  {
    assert (schedule + [a])[..|schedule|] == schedule;
  }

  /** An event that is recorded is in the log from then on, and nothing else changes. */
  lemma RecordedIsInLog(schedule: seq<Action>, id: int)
    requires id > 0 && id !in Exec(schedule).log
    ensures var s, t := Exec(schedule), Exec(schedule + [Append(id)]);
      && (forall x :: x in t.log <==> x in s.log || x == id)
      && Increasing(t.log) && t.lastID == s.lastID && t.acked == s.acked
  {
    ExecKeepsInv(schedule);
    ExecOneMore(schedule, Append(id));
    InsertedOne(Exec(schedule).log, id);
  }

  /** Whatever the log held more than this many events ago is out of reach of one tick. */
  predicate AmongNewest(log: Log, i: nat) {
    i + 200 >= |log|
  }

  /**
    A tick that is acknowledged brings the cursor up to the newest event, and everything new among the
    newest 200 events is sent by it, in one batch; any other tick changes nothing.
  */
  lemma AcknowledgedTickSends(schedule: seq<Action>, outcome: Outcome)
    ensures var s, t := Exec(schedule), Exec(schedule + [Tick(outcome)]);
      && (outcome != Acknowledged ==> t == s)
      && (outcome == Acknowledged ==>
            && t.log == s.log && s.acked <= t.acked && |t.acked| <= |s.acked| + 1
            && (forall id | id in t.log :: id <= t.lastID)
            && (forall i | 0 <= i < |s.log| && AmongNewest(s.log, i) && s.log[i] > s.lastID :: Sent(t, s.log[i]))
            && (forall id | Sent(t, id) && !Sent(s, id) ::
                  id > s.lastID && exists i :: 0 <= i < |s.log| && AmongNewest(s.log, i) && s.log[i] == id))
  {
    ExecKeepsInv(schedule);
    ExecOneMore(schedule, Tick(outcome));
    if outcome == Acknowledged {
      TickSends(Exec(schedule));
    }
  }

  /** The newest event is in the batch unless it has been sent, and so the cursor gets there. */
  lemma NewestIsReached(s: State)
    requires Inv(s)
    ensures forall id | id in s.log :: id <= Apply(s, Tick(Acknowledged)).lastID
  {
    var batch := Batch(s.log, s.lastID);
    BatchContents(s.log, s.lastID);
    CursorIsMaximum(batch, s.lastID);
    PositionSplits(s.log, s.lastID);
    if s.log != [] {
      var newest := s.log[|s.log| - 1];
      assert newest in batch <==> newest > s.lastID;
      forall id | id in s.log ensures id <= newest {
        var i :| 0 <= i < |s.log| && s.log[i] == id;
      }
    }
  }

  lemma TickSends(s: State)
    requires Inv(s)
    ensures var t := Apply(s, Tick(Acknowledged));
      && t.log == s.log && s.acked <= t.acked && |t.acked| <= |s.acked| + 1
      && (forall id | id in t.log :: id <= t.lastID)
      && (forall i | 0 <= i < |s.log| && AmongNewest(s.log, i) && s.log[i] > s.lastID :: Sent(t, s.log[i]))
      && (forall id | Sent(t, id) && !Sent(s, id) ::
            id > s.lastID && exists i :: 0 <= i < |s.log| && AmongNewest(s.log, i) && s.log[i] == id)
  {
    var t, batch := Apply(s, Tick(Acknowledged)), Batch(s.log, s.lastID);
    NewestIsReached(s);
    BatchContents(s.log, s.lastID);
    PositionSplits(s.log, s.lastID);
    forall id ensures batch != [] ==> (Sent(t, id) <==> Sent(s, id) || id in batch) {
      AckedOneMore(s, batch, t.lastID, id);
    }
  }

  /** No event is acknowledged twice: not in two batches, and not twice in one. */
  lemma NoEventSentTwice(schedule: seq<Action>, b: nat, i: nat, c: nat, j: nat)
    requires b < |Exec(schedule).acked| && i < |Exec(schedule).acked[b]|
    requires c < |Exec(schedule).acked| && j < |Exec(schedule).acked[c]|
    requires Exec(schedule).acked[b][i] == Exec(schedule).acked[c][j]
    ensures b == c && i == j
  {
    ExecKeepsInv(schedule);
    var s := Exec(schedule);
    assert s.acked[b][i] in s.acked[b] && s.acked[c][j] in s.acked[c];
    assert Descending(s.acked[b]);
  }

  /** Some tick of the schedule overflows, or some event arrives late. */
  predicate EverMisses(schedule: seq<Action>) {
    schedule != [] &&
    var before, a := schedule[..|schedule| - 1], schedule[|schedule| - 1];
    EverMisses(before) || Overflows(Exec(before), a) || ArrivesLate(Exec(before), a)
  }

  /**
    The acknowledged events are exactly those up to the cursor if and only if no acknowledged tick
    ever found more than 200 events beyond the cursor and no event became visible behind it.
  */
  lemma SentIsPrefixIff(schedule: seq<Action>)
    ensures var s := Exec(schedule);
      (forall id :: Sent(s, id) <==> id in s.log && id <= s.lastID) <==> !EverMisses(schedule)
  {
    ExecKeepsInv(schedule);
    CompleteIff(schedule);
  }

  lemma {:induction false} CompleteIff(schedule: seq<Action>)
    ensures Complete(Exec(schedule)) <==> !EverMisses(schedule)
  {
    if schedule == [] {
    } else {
      var last := |schedule| - 1;
      var before := schedule[..last];
      CompleteIff(before);
      ExecKeepsInv(before);
      var s, a := Exec(before), schedule[last];
      if Enabled(s, a) {
        StepStaysCompleteIff(s, a);
      }
    }
  }

  // ---------------------------------------------------------------- the exporter itself

  class AuditExporter {
    var lastID: int
    ghost var acked: seq<seq<int>>

    ghost function View(log: Log): State
      reads this
    {
      State(log, lastID, acked)
    }

    constructor ()
      ensures View([]) == INIT
    {
      lastID, acked := 0, [];
    }

    /** One tick: query, keep what is new, post it, and move the cursor once it is acknowledged. */
    method Export(log: Log, outcome: Outcome)
      modifies this
      ensures View(log) == Apply(old(View(log)), Tick(outcome))
      ensures outcome != Acknowledged ==> lastID == old(lastID) && acked == old(acked)
      ensures outcome == Acknowledged && Inv(old(View(log))) ==>
        && (forall id | id in log :: id <= lastID)
        && (forall i | 0 <= i < |log| && AmongNewest(log, i) && log[i] > old(lastID) :: Sent(View(log), log[i]))
    {
      if Inv(View(log)) {
        TickSends(View(log));
      }
      if outcome == QueryFails {
        return;
      }
      var events := Page(log, PageSize(EXPORT_LIMIT));
      if events == [] {
        return;
      }
      var toExport := [];
      for i := 0 to |events|
        invariant toExport == Newer(events[..i], lastID)
        invariant unchanged(this)
      {
        assert events[..i + 1][..i] == events[..i];
        if events[i] > lastID {
          toExport := toExport + [events[i]];
        }
      }
      assert events[..|events|] == events;
      if toExport == [] || outcome == PostFails {
        return;
      }
      for i := 0 to |toExport|
        invariant lastID == Cursor(toExport[..i], old(lastID))
        invariant acked == old(acked)
      {
        assert toExport[..i + 1][..i] == toExport[..i];
        if toExport[i] > lastID {
          lastID := toExport[i];
        }
      }
      assert toExport[..|toExport|] == toExport;
      acked := acked + [toExport];
    }
  }
}
