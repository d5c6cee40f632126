/** Exactly-once summing over at-least-once delivery: the kafka-db-sum lambda
    (examples/kafka-db-sum/f.py) behind a consumer's loop (go/worker/event/kafkaServer.go). */
module KafkaSum {
  import opened Common
  import opened KafkaClient

  // ------------------------------------------------------------------ the handler

  /** Where an invocation fails. Outside: it never gets into the handler's try block, or its
      process dies before it commits, so the reply carries no seek header. CommitLost and
      CommitKept: commit raises, without or with effect. Killed: the process dies once the
      transaction is over, before the reply. All others raise at the named statement of the
      try block. */
  datatype Fault =
    | NoFault | Outside | Connect | Select | SkipRollback | Update | Injected | CommitLost | CommitKept | ReadBack | Killed

  datatype Response = Ok | Skipped | SeekTo(offset: nat) | NoSeek

  datatype Row = Row(total: int, lastOffset: int, messageCount: nat)

  const EMPTY := Row(0, -1, 0)

  function Counted(row: Row, offset: nat, n: int): Row {
    Row(row.total + n, offset, row.messageCount + 1)
  }

  /** The invocation adds the record to the row, for good. */
  predicate Adds(row: Row, offset: nat, value: Value, fault: Fault) {
    && offset > row.lastOffset && value.Number?
    && (fault == NoFault || fault == SkipRollback || fault == CommitKept || fault == ReadBack || fault == Killed)
  }

  function Answer(row: Row, offset: nat, value: Value, fault: Fault): Response {
    if fault == Outside then NoSeek
    else if offset <= row.lastOffset then
      if fault == Killed then NoSeek
      else if fault == Connect || fault == Select || fault == SkipRollback then SeekTo(offset)
      else Skipped
    else if !Adds(row, offset, value, fault) || fault == CommitKept || fault == ReadBack then SeekTo(offset)
    else if fault == Killed then NoSeek
    else Ok
  }

  /** One invocation: what it was for, how it failed, the row before and after, the reply. */
  datatype Call = Call(offset: nat, value: Value, fault: Fault, before: Row, after: Row, response: Response)

  function Made(row: Row, offset: nat, value: Value, fault: Fault): Call {
    Call(offset, value, fault, row,
         if Adds(row, offset, value, fault) then Counted(row, offset, value.n) else row,
         Answer(row, offset, value, fault))
  }

  /** A failure that the invocation gets to: of the statements for a counted record, only those
      before and at the rollback; of the others, all but the rollback's. */
  predicate Hits(row: Row, offset: nat, fault: Fault) {
    if offset <= row.lastOffset then
      fault == Outside || fault == Connect || fault == Select || fault == SkipRollback || fault == Killed
    else
      fault != NoFault && fault != SkipRollback
  }

  /** An invocation that meets no failure skips a counted record, counts a number, and asks for
      a body without one again; one that meets a failure asks for the record again, unless it
      did not get to say so; and it has counted the record exactly if its commit took effect. */
  lemma Replies(row: Row, offset: nat, value: Value, fault: Fault)
    ensures var c := Made(row, offset, value, fault);
      && (!Hits(row, offset, fault) ==>
            c.response == (if offset <= row.lastOffset then Skipped else if value.Number? then Ok else SeekTo(offset)))
      && (Hits(row, offset, fault) && fault != Outside && fault != Killed ==> c.response == SeekTo(offset))
      && (fault == Outside ==> c.response == NoSeek)
      && (fault == Killed ==> c.response == if value.Number? || offset <= row.lastOffset then NoSeek else SeekTo(offset))
      && (c.after != row <==>
            && offset > row.lastOffset && value.Number?
            && (!Hits(row, offset, fault) || fault == CommitKept || fault == ReadBack || fault == Killed))
      && (c.after != row ==> c.after.total == row.total + value.n && c.after.lastOffset == offset
                             && c.after.messageCount == row.messageCount + 1)
  {
  }

  /** The row of table running_sum. `faults` says how the n-th invocation fails; `trace` is
      the history of all invocations. */
  class RunningSum {
    const faults: nat -> Fault
    var row: Row
    var calls: nat
    ghost var trace: seq<Call>

    ghost predicate Valid()
      reads this
    {
      calls == |trace| && forall k :: 0 <= k < |trace| ==> trace[k].fault == faults(k)
    }

    constructor (faults: nat -> Fault)
      ensures row == EMPTY && trace == [] && Valid() && this.faults == faults
    {
      this.faults, row, calls, trace := faults, EMPTY, 0, [];
    }

    /** A POST for one record. The row changes only by counting this record once, only if it
        lies past everything counted; a reply from inside the try block without a seek means
        that the record is counted by now. */
    method Handle(offset: nat, value: Value) returns (r: Response)
      requires Valid()
      modifies this
      ensures Valid() && trace == old(trace) + [Made(old(row), offset, value, faults(old(calls)))]
      ensures row == trace[|trace| - 1].after && r == trace[|trace| - 1].response
      ensures row == old(row) || (offset > old(row).lastOffset && value.Number? && row == Counted(old(row), offset, value.n))
      ensures r == Ok || r == Skipped ==> offset <= row.lastOffset
      ensures r == NoSeek && offset > row.lastOffset <==> faults(old(calls)) == Outside && offset > old(row).lastOffset
      ensures r.SeekTo? ==> r.offset == offset
      ensures r == Ok ==> row != old(row)
    {
      var fault := faults(calls);
      trace := trace + [Made(row, offset, value, fault)];
      calls := calls + 1;
      if fault == Outside {
        return NoSeek;
      }
      if fault == Connect || fault == Select {
        return SeekTo(offset);
      }
      if offset <= row.lastOffset {
        if fault == SkipRollback {
          return SeekTo(offset);
        }
        return if fault == Killed then NoSeek else Skipped;
      }
      if value == Other || fault == Update || fault == Injected || fault == CommitLost {
        return SeekTo(offset);
      }
      row := Row(row.total + value.n, offset, row.messageCount + 1);
      if fault == CommitKept || fault == ReadBack {
        return SeekTo(offset);
      }
      r := if fault == Killed then NoSeek else Ok;
    }
  }

  // ------------------------------------------------------------------ the reference

  function NumberAt(log: map<nat, Record>, o: nat): int {
    if o in log && log[o].value.Number? then log[o].value.n else 0
  }

  /** The sum and the number of the log's records with offsets in [a, b), leaving out `lost`. */
  function Sum(log: map<nat, Record>, lost: set<nat>, a: nat, b: int): int {
    if b <= a then 0
    else Sum(log, lost, a, b - 1) + (if b - 1 !in lost then NumberAt(log, b - 1) else 0)
  }

  function Count(log: map<nat, Record>, lost: set<nat>, a: nat, b: int): nat {
    if b <= a then 0
    else Count(log, lost, a, b - 1) + (if b - 1 in log && b - 1 !in lost then 1 else 0)
  }

  /** The sum of the records of [a, b) that are in `lost`. */
  function LostSum(log: map<nat, Record>, lost: set<nat>, a: nat, b: int): int {
    if b <= a then 0
    else LostSum(log, lost, a, b - 1) + (if b - 1 in lost then NumberAt(log, b - 1) else 0)
  }

  /** The row is the sum over the delivered prefix of the log, each record once. */
  ghost predicate Exact(row: Row, log: map<nat, Record>, lost: set<nat>, start: nat) {
    && row.lastOffset >= -1
    && (row.lastOffset >= 0 ==> row.lastOffset in log)
    && row.total == Sum(log, lost, start, row.lastOffset + 1)
    && row.messageCount == Count(log, lost, start, row.lastOffset + 1)
  }

  /** Every record before `pos` has been counted, or its invocation was lost. */
  ghost predicate Caught(row: Row, log: map<nat, Record>, lost: set<nat>, start: nat, pos: nat) {
    && (forall o <- log :: start <= o < pos ==> o <= row.lastOffset || o in lost)
    && (forall o <- lost :: o in log && start <= o < pos)
  }

  ghost predicate Summed(row: Row, log: map<nat, Record>, lost: set<nat>, start: nat, pos: nat) {
    start <= pos && Exact(row, log, lost, start) && Caught(row, log, lost, start, pos)
  }

  /** Between the last counted record and the next there is nothing left to count. */
  lemma {:induction false} SumGap(log: map<nat, Record>, lost: set<nat>, a: nat, b: int, c: int)
    requires b <= c && forall o <- log :: a <= o && b <= o < c ==> o in lost
    ensures Sum(log, lost, a, c) == Sum(log, lost, a, b)
    ensures Count(log, lost, a, c) == Count(log, lost, a, b)
    decreases c - b
  {
    if b < c {
      SumGap(log, lost, a, b, c - 1);
    }
  }

  /** A record lost beyond the last counted one changes nothing yet. */
  lemma {:induction false} SumLost(log: map<nat, Record>, lost: set<nat>, a: nat, b: int, o: nat)
    requires o >= b
    ensures Sum(log, lost + {o}, a, b) == Sum(log, lost, a, b)
    ensures Count(log, lost + {o}, a, b) == Count(log, lost, a, b)
    decreases b - a
  {
    if b > a {
      SumLost(log, lost, a, b - 1, o);
    }
  }

  lemma CountNext(row: Row, log: map<nat, Record>, lost: set<nat>, start: nat, o: nat)
    requires Exact(row, log, lost, start) && Caught(row, log, lost, start, o) && start <= o
    requires o in log && log[o].value.Number? && o > row.lastOffset
    ensures Exact(Counted(row, o, log[o].value.n), log, lost, start)
  {
    SumGap(log, lost, start, row.lastOffset + 1, o);
  }

  // ------------------------------------------------------------------ the history

  /** The invocation failed before the record was counted, and nobody will ask for it again. */
  predicate Missed(c: Call) {
    c.fault == Outside && c.offset > c.before.lastOffset
  }

  function Lost(trace: seq<Call>): set<nat> {
    if trace == [] then {}
    else Lost(trace[..|trace| - 1]) + (if Missed(trace[|trace| - 1]) then {trace[|trace| - 1].offset} else {})
  }

  lemma {:induction false} LostIff(trace: seq<Call>, o: nat)
    ensures o in Lost(trace) <==> exists k :: 0 <= k < |trace| && Missed(trace[k]) && trace[k].offset == o
    decreases |trace|
  {
    if trace != [] {
      var init := trace[..|trace| - 1];
      LostIff(init, o);
      assert forall k :: 0 <= k < |init| ==> init[k] == trace[k];
      if exists k :: 0 <= k < |trace| && Missed(trace[k]) && trace[k].offset == o {
        var k :| 0 <= k < |trace| && Missed(trace[k]) && trace[k].offset == o;
        assert k < |init| ==> Missed(init[k]) && init[k].offset == o;
      }
    }
  }

  /** Each invocation was for a record of the log and did what the handler does. */
  ghost predicate Genuine(trace: seq<Call>, log: map<nat, Record>, start: nat) {
    forall k :: 0 <= k < |trace| ==>
      var c := trace[k];
      c == Made(c.before, c.offset, c.value, c.fault) && c.offset in log && log[c.offset].value == c.value && start <= c.offset
  }

  /** Each invocation found the row as the one before had left it. */
  ghost predicate Linked(trace: seq<Call>, row: Row) {
    if trace == [] then row == EMPTY
    else
      && trace[0].before == EMPTY && trace[|trace| - 1].after == row
      && forall k :: 0 < k < |trace| ==> trace[k].before == trace[k - 1].after
  }

  /** Records are handed out in order, and again only if the lambda asked for it. */
  predicate Precedes(c: Call, offset: nat) {
    if c.response.SeekTo? then c.offset <= offset else c.offset < offset
  }

  ghost predicate Ordered(trace: seq<Call>, pos: nat) {
    && (forall k :: 0 <= k < |trace| ==> Precedes(trace[k], pos))
    && (forall j, k :: 0 <= j < k < |trace| ==> Precedes(trace[j], trace[k].offset))
  }

  /** No record before `pos` was left out. */
  ghost predicate Heard(trace: seq<Call>, log: map<nat, Record>, start: nat, pos: nat) {
    forall o <- log :: start <= o < pos ==> exists k :: 0 <= k < |trace| && trace[k].offset == o
  }

  ghost predicate Told(trace: seq<Call>, row: Row, log: map<nat, Record>, start: nat, pos: nat) {
    Genuine(trace, log, start) && Linked(trace, row) && Ordered(trace, pos) && Heard(trace, log, start, pos)
  }

  ghost predicate Consumed(trace: seq<Call>, row: Row, log: map<nat, Record>, start: nat, pos: nat) {
    Told(trace, row, log, start, pos) && Summed(row, log, Lost(trace), start, pos)
  }

  /** Where the consumer goes on after an invocation. */
  function After(c: Call): nat {
    if c.response.SeekTo? then c.offset else c.offset + 1
  }

  lemma HeardNext(trace: seq<Call>, log: map<nat, Record>, start: nat, c: Call)
    requires Heard(trace, log, start, c.offset)
    ensures Heard(trace + [c], log, start, After(c))
  {
    var t := trace + [c];
    forall x <- log | start <= x < After(c) ensures exists k :: 0 <= k < |t| && t[k].offset == x {
      if x < c.offset {
        var k :| 0 <= k < |trace| && trace[k].offset == x;
        assert t[k].offset == x;
      } else {
        assert t[|trace|].offset == x;
      }
    }
  }

  lemma OrderedNext(trace: seq<Call>, c: Call)
    requires Ordered(trace, c.offset)
    ensures Ordered(trace + [c], After(c))
  {
  }

  lemma LinkedNext(trace: seq<Call>, row: Row, c: Call)
    requires Linked(trace, row) && c.before == row
    ensures Linked(trace + [c], c.after)
  {
  }

  lemma GenuineNext(trace: seq<Call>, log: map<nat, Record>, start: nat, c: Call)
    requires Genuine(trace, log, start) && c == Made(c.before, c.offset, c.value, c.fault)
    requires c.offset in log && log[c.offset].value == c.value && start <= c.offset
    ensures Genuine(trace + [c], log, start)
  {
    var t := trace + [c];
    assert t[|trace|] == c && forall k :: 0 <= k < |trace| ==> t[k] == trace[k];
  }

  lemma ToldNext(trace: seq<Call>, row: Row, log: map<nat, Record>, start: nat, o: nat, fault: Fault)
    requires Told(trace, row, log, start, o) && o in log && start <= o
    ensures var c := Made(row, o, log[o].value, fault); Told(trace + [c], c.after, log, start, After(c))
  {
    var c := Made(row, o, log[o].value, fault);
    HeardNext(trace, log, start, c);
    OrderedNext(trace, c);
    LinkedNext(trace, row, c);
    GenuineNext(trace, log, start, c);
  }

  lemma LostSnoc(trace: seq<Call>, c: Call)
    ensures Lost(trace + [c]) == if Missed(c) then Lost(trace) + {c.offset} else Lost(trace)
  {
    assert (trace + [c])[..|trace|] == trace;
  }

  lemma AddedSummed(row: Row, log: map<nat, Record>, lost: set<nat>, start: nat, o: nat, after: nat)
    requires Summed(row, log, lost, start, o) && o in log && log[o].value.Number? && o > row.lastOffset
    requires after == o || after == o + 1
    ensures Summed(Counted(row, o, log[o].value.n), log, lost, start, after)
  {
    CountNext(row, log, lost, start, o);
  }

  lemma MissedSummed(row: Row, log: map<nat, Record>, lost: set<nat>, start: nat, o: nat)
    requires Summed(row, log, lost, start, o) && o in log && o > row.lastOffset
    ensures Summed(row, log, lost + {o}, start, o + 1)
  {
    SumLost(log, lost, start, row.lastOffset + 1, o);
  }

  lemma SummedNext(row: Row, log: map<nat, Record>, lost: set<nat>, start: nat, o: nat, fault: Fault)
    requires Summed(row, log, lost, start, o) && o in log
    ensures var c := Made(row, o, log[o].value, fault);
      Summed(c.after, log, if Missed(c) then lost + {o} else lost, start, After(c))
  {
    var c := Made(row, o, log[o].value, fault);
    if Adds(row, o, log[o].value, fault) {
      AddedSummed(row, log, lost, start, o, After(c));
    } else if Missed(c) {
      MissedSummed(row, log, lost, start, o);
    }
  }

  /** One record has been delivered: the row stays exact, and afterwards either everything up
      to and including it is caught, or it will be delivered again. */
  lemma Delivered(trace: seq<Call>, row: Row, log: map<nat, Record>, start: nat, o: nat, fault: Fault)
    requires Consumed(trace, row, log, start, o) && o in log
    ensures var c := Made(row, o, log[o].value, fault); Consumed(trace + [c], c.after, log, start, After(c))
  {
    ToldNext(trace, row, log, start, o, fault);
    SummedNext(row, log, Lost(trace), start, o, fault);
    LostSnoc(trace, Made(row, o, log[o].value, fault));
  }

  lemma Gap(trace: seq<Call>, row: Row, log: map<nat, Record>, start: nat, a: nat, b: nat)
    requires Consumed(trace, row, log, start, a) && a <= b && forall x <- log :: !(a <= x < b)
    ensures Consumed(trace, row, log, start, b)
  {
  }

  // ------------------------------------------------------------------ how it comes about

  ghost predicate Free(log: map<nat, Record>, a: nat, b: nat) {
    forall x <- log :: !(a <= x < b)
  }

  /** `trace` is what a consumer that began at `start` with an empty row and has got to `pos`
      did: each invocation is for the first record from where the one before left it. */
  ghost predicate Follows(trace: seq<Call>, row: Row, log: map<nat, Record>, start: nat, pos: nat)
    decreases |trace|
  {
    if trace == [] then row == EMPTY && start <= pos && Free(log, start, pos)
    else
      var c := trace[|trace| - 1];
      && c.offset in log && c == Made(c.before, c.offset, log[c.offset].value, c.fault) && row == c.after
      && After(c) <= pos && Free(log, After(c), pos)
      && Follows(trace[..|trace| - 1], c.before, log, start, c.offset)
  }

  lemma FollowsNext(trace: seq<Call>, row: Row, log: map<nat, Record>, start: nat, o: nat, fault: Fault)
    requires Follows(trace, row, log, start, o) && o in log
    ensures var c := Made(row, o, log[o].value, fault); Follows(trace + [c], c.after, log, start, After(c))
  {
    var c := Made(row, o, log[o].value, fault);
    assert (trace + [c])[..|trace|] == trace;
  }

  lemma FollowsGap(trace: seq<Call>, row: Row, log: map<nat, Record>, start: nat, a: nat, b: nat)
    requires Follows(trace, row, log, start, a) && a <= b && Free(log, a, b)
    ensures Follows(trace, row, log, start, b)
  {
  }

  /** Whatever the consumer did, it consumed exactly what lies before its position. */
  lemma {:induction false} FollowsConsumed(trace: seq<Call>, row: Row, log: map<nat, Record>, start: nat, pos: nat)
    requires Follows(trace, row, log, start, pos)
    ensures Consumed(trace, row, log, start, pos)
    decreases |trace|
  {
    if trace != [] {
      var init, c := trace[..|trace| - 1], trace[|trace| - 1];
      FollowsConsumed(init, c.before, log, start, c.offset);
      Delivered(init, c.before, log, start, c.offset, c.fault);
      assert init + [c] == trace;
      Gap(trace, row, log, start, After(c), pos);
    }
  }

  /** From the i-th on, `records` are the log's from `a` to `b`. */
  ghost predicate Ahead(records: seq<Record>, i: nat, log: map<nat, Record>, a: nat, b: nat) {
    i <= |records| && records[i..] == Slice(log, a, b)
  }

  /** Up to the first record of the rest of a batch there is nothing to deliver. */
  lemma NextRecord(trace: seq<Call>, row: Row, log: map<nat, Record>, tp: Tp, start: nat, a: nat, b: nat,
                   records: seq<Record>, i: nat)
    requires IsLog(log, tp) && Follows(trace, row, log, start, a) && Ahead(records, i, log, a, b) && i < |records|
    ensures var o := records[i].offset;
      a <= o < b && o in log && log[o] == records[i] && Follows(trace, row, log, start, o) && Ahead(records, i + 1, log, o + 1, b)
  {
    SliceHead(log, tp, a, b);
    assert records[i..][1..] == records[i + 1..];
    FollowsGap(trace, row, log, start, a, records[i].offset);
  }

  lemma NoRecord(trace: seq<Call>, row: Row, log: map<nat, Record>, start: nat, a: nat, b: nat, records: seq<Record>)
    requires a <= b && Follows(trace, row, log, start, a) && Ahead(records, |records|, log, a, b)
    ensures Follows(trace, row, log, start, b)
  {
    SliceEmpty(log, a, b);
    FollowsGap(trace, row, log, start, a, b);
  }

  // --------------------------------------------------------------------- the consumer

  class LambdaKafkaConsumer {
    const client: CachedKafkaClient
    const db: RunningSum
    const start: nat
    var errorCount: nat

    /** All records before `pos` have been delivered. */
    ghost predicate At(pos: nat)
      reads this, client, client.underlying, db
    {
      client.Valid() && db.Valid() && Follows(db.trace, db.row, client.underlying.log, start, pos)
    }

    ghost predicate Valid()
      reads this, client, client.underlying, db
    {
      At(client.Position())
    }

    constructor (client: CachedKafkaClient, db: RunningSum)
      requires client.Valid() && db.Valid() && db.row == EMPTY && db.trace == []
      ensures Valid() && this.client == client && this.db == db
      ensures start == client.Position() && errorCount == 0
    {
      this.client, this.db, this.start := client, db, client.Position();
      errorCount := 0;
    }

    /** processMessage: invokes the lambda once; the seek it asks for, if any. */
    method ProcessMessage(record: Record) returns (seek: Option<nat>)
      requires At(record.offset)
      requires record.offset in client.underlying.log && client.underlying.log[record.offset] == record
      modifies db
      ensures db.trace == old(db.trace) + [Made(old(db.row), record.offset, record.value, db.faults(|old(db.trace)|))]
      ensures db.row == db.trace[|old(db.trace)|].after
      ensures seek == if db.trace[|old(db.trace)|].response.SeekTo? then Some(record.offset) else None
      ensures At(if seek.Some? then record.offset else record.offset + 1)
    {
      FollowsNext(db.trace, db.row, client.underlying.log, start, record.offset, db.faults(db.calls));
      var response := db.Handle(record.offset, record.value);
      seek := if response.SeekTo? then Some(response.offset) else None;
    }

    /** From the i-th on, the records of a batch that ends at `end` are still to be delivered. */
    ghost predicate Batch(records: seq<Record>, i: nat, cursor: nat, end: nat)
      reads this, client, client.underlying, db
    {
      cursor <= end && At(cursor) && Ahead(records, i, client.underlying.log, cursor, end)
    }

    /** The body of the loop over the records of a poll. */
    method ProcessNext(records: seq<Record>, i: nat, ghost cursor: nat, ghost end: nat) returns (again: bool)
      requires i < |records| && Batch(records, i, cursor, end)
      modifies db, client`seekTarget
      ensures |db.trace| == |old(db.trace)| + 1 && old(db.trace) <= db.trace
      ensures again ==> Valid() && db.trace[|db.trace| - 1].response == SeekTo(client.Position())
      ensures !again ==> Batch(records, i + 1, records[i].offset + 1, end) && client.seekTarget == old(client.seekTarget)
    {
      NextRecord(db.trace, db.row, client.underlying.log, client.underlying.tp, start, cursor, end, records, i);
      var seek := ProcessMessage(records[i]);
      again := seek.Some?;
      if again {
        client.Seek(seek.value);
      }
    }

    /** The records of one poll, in order: all of them, or up to the first one that the lambda
        wants again, to which it seeks back. */
    method ProcessBatch(records: seq<Record>, ghost from: nat)
      requires At(from) && from <= client.Position()
      requires records == Slice(client.underlying.log, from, client.Position())
      modifies db, client`seekTarget
      ensures Valid() && old(db.trace) <= db.trace
      ensures client.Position() == old(client.Position())
              || (|old(db.trace)| < |db.trace| && db.trace[|db.trace| - 1].response == SeekTo(client.Position()))
    {
      ghost var cursor: nat := from;
      ghost var end := client.Position();
      assert records[0..] == records;
      var i := 0;
      while i < |records|
        invariant 0 <= i <= |records| && client.Position() == end
        invariant Batch(records, i, cursor, end) && old(db.trace) <= db.trace
      {
        ghost var before := db.trace;
        var again := ProcessNext(records, i, cursor, end);
        PrefixTransitive(old(db.trace), before, db.trace);
        if again {
          return;
        }
        cursor := records[i].offset + 1;
        i := i + 1;
      }
      NoRecord(db.trace, db.row, client.underlying.log, start, cursor, end, records);
    }

    /** consumeLoop, for the polls it makes before the stop signal. Whatever fails, every
        invocation is one of a record handed out in order, and the row is the exact sum over
        everything consumed but the records whose invocation failed outside the try block. If
        none does, it is the exact sum over all records up to last_offset. */
    method ConsumeLoop(polls: nat) returns (panicked: bool)
      requires Valid()
      modifies this, db, client, client.underlying
      ensures panicked ==> client.maxSize < 1
      ensures !panicked ==> Valid() && client.polls == old(client.polls) + polls
      ensures old(db.trace) <= db.trace && db.Valid()
      ensures Exact(db.row, client.underlying.log, Lost(db.trace), start)
      ensures (forall n: nat :: db.faults(n) != Outside) ==> Exact(db.row, client.underlying.log, {}, start)
    {
      panicked := false;
      for n := 0 to polls
        invariant Valid() && !panicked && old(db.trace) <= db.trace && client.polls == old(client.polls) + n
      {
        ghost var from := client.Position();
        var f;
        f, panicked := client.PollFetches();
        if panicked {
          FollowsExact(db.trace, db.row, client.underlying.log, start, from);
          return;
        }
        match f {
          case Errors(count) => errorCount := errorCount + count;
          case Records(records) => ProcessBatch(records, from);
        }
      }
      FollowsExact(db.trace, db.row, client.underlying.log, start, client.Position());
    }
  }

  lemma FollowsExact(trace: seq<Call>, row: Row, log: map<nat, Record>, start: nat, pos: nat)
    requires Follows(trace, row, log, start, pos)
    ensures Exact(row, log, Lost(trace), start)
    ensures (forall k :: 0 <= k < |trace| ==> trace[k].fault != Outside) ==> Exact(row, log, {}, start)
  {
    FollowsConsumed(trace, row, log, start, pos);
    NothingMissed(trace);
  }

  lemma PrefixTransitive(a: seq<Call>, b: seq<Call>, c: seq<Call>)
    requires a <= b <= c
    ensures a <= c
  {
  }

  lemma NothingMissed(trace: seq<Call>)
    ensures (forall k :: 0 <= k < |trace| ==> trace[k].fault != Outside) ==> Lost(trace) == {}
  {
    forall o ensures o in Lost(trace) ==> exists k :: 0 <= k < |trace| && trace[k].fault == Outside {
      LostIff(trace, o);
    }
  }

  /** The consumer goes back only if something failed or the body has no number: a batch of
      numbers without a failure is consumed to its end. */
  lemma NoFailureNoSeek(trace: seq<Call>, row: Row, log: map<nat, Record>, start: nat, pos: nat, k: nat)
    requires Follows(trace, row, log, start, pos) && k < |trace|
    ensures trace[k].response.SeekTo? ==> trace[k].value == Other || Hits(trace[k].before, trace[k].offset, trace[k].fault)
  {
    FollowsConsumed(trace, row, log, start, pos);
    var c := trace[k];
    assert c == Made(c.before, c.offset, c.value, c.fault);
    Replies(c.before, c.offset, c.value, c.fault);
  }

  // ---------------------------------------------------------------------- exactly once

  predicate Counting(c: Call) {
    c.after != c.before
  }

  lemma {:induction false} RowsRise(trace: seq<Call>, row: Row, log: map<nat, Record>, start: nat, j: nat, k: nat)
    requires Genuine(trace, log, start) && Linked(trace, row) && j < k < |trace|
    ensures trace[j].after.lastOffset <= trace[k].before.lastOffset
    decreases k
  {
    if j < k - 1 {
      RowsRise(trace, row, log, start, j, k - 1);
    }
  }

  /** No record is counted by two invocations. */
  lemma CountedOnce(trace: seq<Call>, row: Row, log: map<nat, Record>, start: nat, pos: nat, j: nat, k: nat)
    requires Told(trace, row, log, start, pos) && j < k < |trace| && Counting(trace[j]) && Counting(trace[k])
    ensures trace[j].offset < trace[k].offset
  {
    RowsRise(trace, row, log, start, j, k);
  }

  /** A lost record was handed out, and no invocation before or after has counted it. */
  lemma LostMeans(trace: seq<Call>, row: Row, log: map<nat, Record>, start: nat, pos: nat, k: nat, j: nat)
    requires Told(trace, row, log, start, pos) && k < |trace| && Missed(trace[k])
    requires j < |trace| && trace[j].offset == trace[k].offset
    ensures trace[k].offset < pos && !Counting(trace[j])
  {
    if j < k {
      RowsRise(trace, row, log, start, j, k);
    }
  }

  lemma {:induction false} LostCounts(log: map<nat, Record>, lost: set<nat>, a: nat, b: int)
    requires forall o <- lost :: o in log && a <= o
    ensures Count(log, lost, a, b) <= Count(log, {}, a, b)
    ensures Count(log, lost, a, b) == Count(log, {}, a, b) <==> forall o <- lost :: o >= b
    ensures Sum(log, lost, a, b) + LostSum(log, lost, a, b) == Sum(log, {}, a, b)
    decreases b - a
  {
    if b > a {
      LostCounts(log, lost, a, b - 1);
    }
  }

  /** By how much a row falls short of counting and summing everything. */
  ghost predicate Short(row: Row, log: map<nat, Record>, lost: set<nat>, start: nat) {
    && (row.messageCount == Count(log, {}, start, row.lastOffset + 1) <==> AllAfter(lost, row.lastOffset))
    && row.total + LostSum(log, lost, start, row.lastOffset + 1) == Sum(log, {}, start, row.lastOffset + 1)
  }

  lemma FollowsShort(trace: seq<Call>, row: Row, log: map<nat, Record>, start: nat, pos: nat)
    requires Follows(trace, row, log, start, pos)
    ensures Short(row, log, Lost(trace), start)
  {
    FollowsConsumed(trace, row, log, start, pos);
    SummedShort(row, log, Lost(trace), start, pos);
  }

  lemma SummedShort(row: Row, log: map<nat, Record>, lost: set<nat>, start: nat, pos: nat)
    requires Summed(row, log, lost, start, pos)
    ensures Short(row, log, lost, start)
  {
    LostCounts(log, lost, start, row.lastOffset + 1);
  }

  ghost predicate AllAfter(lost: set<nat>, b: int) {
    forall o <- lost :: o > b
  }

  /** No invocation for a record up to `b` was missed. */
  ghost predicate NoneMissed(trace: seq<Call>, b: int) {
    forall k :: 0 <= k < |trace| && Missed(trace[k]) ==> trace[k].offset > b
  }

  lemma LostAfter(trace: seq<Call>, b: int)
    ensures AllAfter(Lost(trace), b) <==> NoneMissed(trace, b)
  {
    if AllAfter(Lost(trace), b) {
      forall k | 0 <= k < |trace| && Missed(trace[k]) ensures trace[k].offset > b {
        LostIff(trace, trace[k].offset);
      }
    }
    if NoneMissed(trace, b) {
      forall o <- Lost(trace) ensures o > b {
        LostIff(trace, o);
        var k :| 0 <= k < |trace| && Missed(trace[k]) && trace[k].offset == o;
      }
    }
  }

  /** The row counts every record up to the last counted one exactly when no invocation for one
      of them failed outside the try block before it was counted; and the total falls short by
      exactly the numbers of the records for which one did. */
  lemma ExactlyOnceIff(trace: seq<Call>, row: Row, log: map<nat, Record>, start: nat, pos: nat)
    requires Follows(trace, row, log, start, pos)
    ensures row.messageCount == Count(log, {}, start, row.lastOffset + 1) <==> NoneMissed(trace, row.lastOffset)
    ensures row.total + LostSum(log, Lost(trace), start, row.lastOffset + 1) == Sum(log, {}, start, row.lastOffset + 1)
  {
    FollowsShort(trace, row, log, start, pos);
    LostAfter(trace, row.lastOffset);
  }

  /** The end of what has been handed out. */
  function HandedOut(row: Row, pos: nat): int {
    if pos > row.lastOffset then pos else row.lastOffset + 1
  }

  lemma SummedAll(row: Row, log: map<nat, Record>, lost: set<nat>, start: nat, pos: nat)
    requires Summed(row, log, lost, start, pos)
    ensures row.messageCount == Count(log, {}, start, HandedOut(row, pos)) <==> lost == {}
    ensures row.total + LostSum(log, lost, start, HandedOut(row, pos)) == Sum(log, {}, start, HandedOut(row, pos))
  {
    var end := HandedOut(row, pos);
    SumGap(log, lost, start, row.lastOffset + 1, end);
    LostCounts(log, lost, start, end);
    AllBefore(lost, end);
  }

  lemma FollowsSummed(trace: seq<Call>, row: Row, log: map<nat, Record>, start: nat, pos: nat)
    requires Follows(trace, row, log, start, pos)
    ensures Summed(row, log, Lost(trace), start, pos)
  {
    FollowsConsumed(trace, row, log, start, pos);
  }

  /** Everything handed out is counted once if and only if no invocation failed outside the
      try block before its record was counted. */
  lemma AllCountedIff(trace: seq<Call>, row: Row, log: map<nat, Record>, start: nat, pos: nat)
    requires Follows(trace, row, log, start, pos)
    ensures row.messageCount == Count(log, {}, start, HandedOut(row, pos)) <==>
            forall k :: 0 <= k < |trace| ==> !Missed(trace[k])
    ensures row.total + LostSum(log, Lost(trace), start, HandedOut(row, pos)) == Sum(log, {}, start, HandedOut(row, pos))
  {
    FollowsSummed(trace, row, log, start, pos);
    SummedAll(row, log, Lost(trace), start, pos);
    NoneLost(trace);
  }

  lemma NoneLost(trace: seq<Call>)
    ensures Lost(trace) == {} <==> forall k :: 0 <= k < |trace| ==> !Missed(trace[k])
  {
    if Lost(trace) == {} {
      forall k | 0 <= k < |trace| ensures !Missed(trace[k]) {
        LostIff(trace, trace[k].offset);
      }
    } else {
      var o :| o in Lost(trace);
      LostIff(trace, o);
    }
  }

  lemma AllBefore(lost: set<nat>, b: int)
    requires forall o <- lost :: o < b
    ensures (forall o <- lost :: o >= b) <==> lost == {}
  {
    if lost != {} {
      var o :| o in lost;
    }
  }

  /** If no invocation failed outside the try block, a consumer that has got past the whole
      log has summed and counted each of its records once. */
  lemma WholeLogOnce(trace: seq<Call>, row: Row, log: map<nat, Record>, start: nat, pos: nat)
    requires Follows(trace, row, log, start, pos)
    requires forall k :: 0 <= k < |trace| ==> trace[k].fault != Outside
    requires forall o <- log :: start <= o < pos
    ensures row.total == Sum(log, {}, start, pos)
    ensures row.messageCount == Count(log, {}, start, pos)
  {
    FollowsConsumed(trace, row, log, start, pos);
    NothingMissed(trace);
    SumGap(log, {}, start, row.lastOffset + 1, pos);
  }

  /** A consumer of two records, whose first invocation fails outside the try block. */
  method TwoRecordConsumer(tp: Tp, a: int, b: int) returns (consumer: LambdaKafkaConsumer)
    ensures fresh(consumer.db) && fresh(consumer.client) && fresh(consumer.client.underlying)
    ensures consumer.Valid() && consumer.start == 0 && consumer.db.trace == [] && consumer.db.row == EMPTY
    ensures consumer.client.seekTarget == None && consumer.client.underlying.pos == 0 && consumer.client.maxSize == 8
    ensures consumer.client.underlying.log == map[0 := Record(tp, 0, Number(a)), 1 := Record(tp, 1, Number(b))]
    ensures forall n: nat :: consumer.db.faults(n) == if n == 0 then Outside else NoFault
    ensures consumer.client.underlying.broker(consumer.client.underlying.polled) == Reaches(2)
  {
    var log := map[0 := Record(tp, 0, Number(a)), 1 := Record(tp, 1, Number(b))];
    var underlying := new LogClient(tp, log, _ => Reaches(2), 0);
    var client := new CachedKafkaClient(underlying, 8);
    var db := new RunningSum(n => if n == 0 then Outside else NoFault);
    consumer := new LambdaKafkaConsumer(client, db);
  }

  /** One turn of its loop later it is past both records and has counted only the second. */
  method LoseFirst(tp: Tp, a: int, b: int) returns (consumer: LambdaKafkaConsumer)
    ensures consumer.Valid() && consumer.start == 0 && consumer.client.Position() >= 2
    ensures consumer.db.row == Row(b, 1, 1)
    ensures var log := consumer.client.underlying.log;
      log == map[0 := Record(tp, 0, Number(a)), 1 := Record(tp, 1, Number(b))]
      && Count(log, {}, 0, 2) == 2 && Sum(log, {}, 0, 2) == a + b
  {
    consumer := TwoRecordConsumer(tp, a, b);
    var client, db := consumer.client, consumer.db;
    ghost var log := client.underlying.log;
    TwoRecords(log);
    var f, panicked := client.PollFetches();
    ShortSlice(log, client.Position());
    consumer.ProcessBatch(f.records, 0);
    FirstMissed(db.trace, db.row, log, client.Position(), a, b);
  }

  lemma TwoRecords(log: map<nat, Record>)
    requires log.Keys == {0, 1}
    ensures Slice(log, 0, 2) == [log[0], log[1]]
    ensures Count(log, {}, 0, 2) == 2 && Sum(log, {}, 0, 2) == NumberAt(log, 0) + NumberAt(log, 1)
  {
    assert Slice(log, 2, 2) == [];
    assert Slice(log, 1, 2) == [log[1]];
    assert Count(log, {}, 0, 1) == 1 && Sum(log, {}, 0, 1) == NumberAt(log, 0);
  }

  /** Nothing shorter has two records. */
  lemma ShortSlice(log: map<nat, Record>, pos: nat)
    requires |Slice(log, 0, pos)| == 2
    ensures pos >= 2
  {
    assert Slice(log, 1, 1) == [];
  }

  lemma {:induction false} OffsetsRise(trace: seq<Call>, pos: nat, k: int)
    requires Ordered(trace, pos) && 0 <= k < |trace|
    requires forall i :: 0 <= i < |trace| ==> !trace[i].response.SeekTo?
    ensures trace[k].offset >= k
    decreases k
  {
    if k > 0 {
      OffsetsRise(trace, pos, k - 1);
      assert Precedes(trace[k - 1], trace[k].offset);
    }
  }

  /** What a consumer of two records does whose first invocation only fails, outside the try block. */
  lemma FirstMissed(trace: seq<Call>, row: Row, log: map<nat, Record>, pos: nat, a: int, b: int)
    requires Follows(trace, row, log, 0, pos)
    requires log.Keys == {0, 1} && log[0].value == Number(a) && log[1].value == Number(b)
    requires forall k :: 0 <= k < |trace| ==> trace[k].fault == if k == 0 then Outside else NoFault
    requires pos >= 2 || (trace != [] && trace[|trace| - 1].response == SeekTo(pos))
    ensures row == Row(b, 1, 1) && pos >= 2
  {
    FollowsConsumed(trace, row, log, 0, pos);
    forall k | 0 <= k < |trace| ensures !trace[k].response.SeekTo? && (trace[k].offset == 0 || trace[k].offset == 1) {
      assert trace[k] == Made(trace[k].before, trace[k].offset, trace[k].value, trace[k].fault);
      assert trace[k].value == log[trace[k].offset].value;
    }
    OffsetsRise(trace, pos, |trace| - 1);
    var i :| 0 <= i < |trace| && trace[i].offset == 0;
    var j :| 0 <= j < |trace| && trace[j].offset == 1;
    OffsetsRise(trace, pos, i);
    OffsetsRise(trace, pos, j);
    assert trace[0].before == EMPTY && trace[1].before == trace[0].after;
  }
}
