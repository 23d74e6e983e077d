/**
The collection pipeline as a state machine: read the log, spool the events, save the cursor, deliver
and acknowledge, with a crash possible between any two durable writes.

The log file only grows and is not rotated.  The server keeps every event it accepted; a delivery whose
response is lost looks to the agent like a failure.
*/
module CollectorRun {
  import opened Results
  import opened SantaReader
  import opened AgentSpool

  /** What the agent holds in memory between two steps of a run. */
  datatype Phase =
    | Idle
    | Collected(events: seq<Event>, next: nat)
    | Spooled(next: nat)
    | Sent(id: nat)

  /** A row that the spool inserted, which starts with so many control events. */
  datatype Inserted = Inserted(row: Outbound, controls: nat)

  /** `inserted` is history: all rows ever inserted into the spool, in order. */
  datatype State = State(d: Disk, log: seq<Byte>, accepted: set<Event>, phase: Phase, inserted: seq<Inserted>)

  datatype Setup = Setup(limits: Limits, parse: seq<Byte> -> Parsed)

  datatype Step =
    | Grow(bytes: seq<Byte>)
    | ReadLog
    | EnqueueRead(control: seq<Event>, fingerprint: string, interval: int, now: int)
    | SaveCursor
    | Deliver(index: nat)
    | AcknowledgeSent
    | Crash

  const START: State := State(EMPTY, [], {}, Idle, [])

  function CollectionOf(step: Step, events: seq<Event>): Collection
    requires step.EnqueueRead?
  {
    Collection(step.control, events, step.fingerprint, step.interval, step.now)
  }

  /** What the table of batches has gained. */
  function NewRows(before: Disk, after: Disk, controls: nat): seq<Inserted> {
    if |after.outbound| <= |before.outbound| then []
    else
      var n := |before.outbound|;
      seq(|after.outbound| - n, i requires 0 <= i < |after.outbound| - n => Inserted(after.outbound[n + i], controls))
  }

  /** The telemetry of inserted rows, row after row. */
  function Telemetry(rows: seq<Inserted>): seq<Event> {
    if rows == [] then [] else
    var last := rows[|rows| - 1];
    Telemetry(rows[..|rows| - 1]) + if last.controls <= |last.row.events| then last.row.events[last.controls..] else []
  }

  /**
  One step; a step that is not possible in the current phase changes nothing.  A refused read leaves the
  cursor where it is, and the run goes on without telemetry.
  */
  function Apply(u: Setup, s: State, step: Step): State {
    match step
    case Grow(bytes) => s.(log := s.log + bytes)
    case ReadLog =>
      if !s.phase.Idle? || s.d.cursor > |s.log| then s else
      var r := ReadOn(u.limits, u.parse, s.log, s.d.cursor, 0, 0);
      if r.Batch? then s.(phase := Collected(r.events, r.next)) else s.(phase := Collected([], s.d.cursor))
    case EnqueueRead(_, _, _, _) =>
      if !s.phase.Collected? then s else
      var c := CollectionOf(step, s.phase.events);
      s.(d := Enqueue(s.d, c),
         phase := Spooled(s.phase.next),
         inserted := s.inserted + NewRows(s.d, Enqueue(s.d, c), if ControlDue(s.d, c) then |c.control| else 0))
    case SaveCursor =>
      if s.phase.Spooled? then s.(d := s.d.(cursor := s.phase.next), phase := Idle) else s
    case Deliver(i) =>
      if s.phase.Idle? && i < |s.d.outbound| then
        s.(accepted := s.accepted + (set e | e in s.d.outbound[i].events), phase := Sent(s.d.outbound[i].id))
      else s
    case AcknowledgeSent =>
      if s.phase.Sent? then s.(d := Acknowledge(s.d, s.phase.id), phase := Idle) else s
    case Crash => s.(phase := Idle)
  }

  function Run(u: Setup, steps: seq<Step>): State {
    if steps == [] then START else Apply(u, Run(u, steps[..|steps| - 1]), steps[|steps| - 1])
  }

  // ---------------------------------------------------------------- nothing is lost

  predicate Safe(s: State, e: Event) { e in s.accepted || exists b :: b in s.d.outbound && e in b.events }

  /** Every event of the log up to `p` is in the spool or with the server. */
  ghost predicate Covered(u: Setup, s: State, p: nat) {
    Boundary(s.log, p) && forall e :: e in Events(u.parse, s.log[..p]) ==> Safe(s, e)
  }

  ghost predicate PhaseOk(u: Setup, s: State) {
    match s.phase
    case Idle => true
    case Collected(events, next) =>
      s.d.cursor <= next && Boundary(s.log, next) && events == Events(u.parse, s.log[s.d.cursor..next])
    case Spooled(next) => s.d.cursor <= next && Covered(u, s, next)
    case Sent(id) => forall b, e :: b in s.d.outbound && b.id == id && e in b.events ==> e in s.accepted
  }

  predicate DistinctBatches(batches: seq<Outbound>) {
    forall i, j :: 0 <= i < j < |batches| ==> batches[i].id != batches[j].id
  }

  ghost predicate Inv(u: Setup, s: State) {
    && (forall b :: b in s.d.outbound ==> b.id < s.d.nextId)
    && DistinctBatches(s.d.outbound)
    && Covered(u, s, s.d.cursor)
    && PhaseOk(u, s)
  }

  /** Whatever stays safe stays covered. */
  lemma {:induction false} CoveredStays(u: Setup, s: State, t: State, p: nat)
    requires Covered(u, s, p) && s.log <= t.log && forall e :: Safe(s, e) ==> Safe(t, e)
    ensures Covered(u, t, p)
  {
    hide Events;
    assert t.log[..p] == s.log[..p];
  }

  lemma {:induction false} KeepsGrow(u: Setup, s: State, bytes: seq<Byte>)
    requires Inv(u, s)
    ensures Inv(u, Apply(u, s, Grow(bytes)))
  {
    hide Events;
    var t := Apply(u, s, Grow(bytes));
    CoveredStays(u, s, t, s.d.cursor);
    if s.phase.Collected? {
      assert t.log[s.d.cursor..s.phase.next] == s.log[s.d.cursor..s.phase.next];
    } else if s.phase.Spooled? {
      CoveredStays(u, s, t, s.phase.next);
    }
  }

  lemma {:induction false} KeepsRead(u: Setup, s: State)
    requires Inv(u, s)
    ensures Inv(u, Apply(u, s, ReadLog))
  {
    hide Events, ReadOn;
    var t := Apply(u, s, ReadLog);
    ReadIsExact(u.limits, u.parse, s.log, s.d.cursor, 0, 0);
    NoEvents(u.parse);
    assert s.log[s.d.cursor..s.d.cursor] == [];
    CoveredStays(u, s, t, s.d.cursor);
  }

  lemma {:induction false} KeepsEnqueue(u: Setup, s: State, step: Step)
    requires Inv(u, s) && step.EnqueueRead? && s.phase.Collected?
    ensures Inv(u, Apply(u, s, step))
  {
    hide Events, ControlDue;
    var c := CollectionOf(step, s.phase.events);
    var t := Apply(u, s, step);
    var next := s.phase.next;
    assert forall b :: b in s.d.outbound ==> b in t.d.outbound;
    CoveredStays(u, s, t, s.d.cursor);
    forall e | e in Events(u.parse, s.log[..next]) ensures Safe(t, e) {
      Stretches(u.parse, s.log, 0, s.d.cursor, next);
      assert s.log[0..next] == s.log[..next] && s.log[0..s.d.cursor] == s.log[..s.d.cursor];
      if e in s.phase.events {
        TelemetryIsEnqueued(s.d, c, e);
      } else {
        assert Safe(s, e);
      }
    }
  }

  lemma {:induction false} KeepsDeliver(u: Setup, s: State, i: nat)
    requires Inv(u, s) && s.phase.Idle? && i < |s.d.outbound|
    ensures Inv(u, Apply(u, s, Deliver(i)))
  {
    hide Events;
    var t := Apply(u, s, Deliver(i));
    CoveredStays(u, s, t, s.d.cursor);
    forall b, e | b in t.d.outbound && b.id == t.phase.id && e in b.events ensures e in t.accepted {
      var j :| 0 <= j < |s.d.outbound| && s.d.outbound[j] == b;
    }
  }

  lemma {:induction false} KeepsAcknowledge(u: Setup, s: State)
    requires Inv(u, s) && s.phase.Sent?
    ensures Inv(u, Apply(u, s, AcknowledgeSent))
  {
    hide Events;
    var t := Apply(u, s, AcknowledgeSent);
    var id := s.phase.id;
    WithoutDistinct(s.d.outbound, id);
    forall e | Safe(s, e) ensures Safe(t, e) {
      if e !in s.accepted {
        var b :| b in s.d.outbound && e in b.events;
        assert b in t.d.outbound;
      }
    }
    CoveredStays(u, s, t, s.d.cursor);
  }

  lemma {:induction false} WithoutDistinct(batches: seq<Outbound>, id: nat)
    requires DistinctBatches(batches)
    ensures DistinctBatches(Without(batches, id))
  {
    if batches != [] {
      var rest := Without(batches[1..], id);
      WithoutDistinct(batches[1..], id);
      forall j | 0 <= j < |rest| ensures rest[j].id != batches[0].id {
        assert rest[j] in batches[1..];
        var k :| 0 <= k < |batches[1..]| && batches[1..][k] == rest[j];
        assert batches[k + 1] == rest[j];
      }
      assert Without(batches, id) == if batches[0].id == id then [] + rest else [batches[0]] + rest;
    }
  }

  lemma {:induction false} KeepsInv(u: Setup, s: State, step: Step)
    requires Inv(u, s)
    ensures Inv(u, Apply(u, s, step))
  {
    hide Events, Inv, Enqueue, Acknowledge, ReadOn;
    match step
    case Grow(bytes) => KeepsGrow(u, s, bytes);
    case ReadLog => KeepsRead(u, s);
    case EnqueueRead(_, _, _, _) => if s.phase.Collected? { KeepsEnqueue(u, s, step); }
    case SaveCursor => KeepsSave(u, s);
    case Deliver(i) => if s.phase.Idle? && i < |s.d.outbound| { KeepsDeliver(u, s, i); }
    case AcknowledgeSent => if s.phase.Sent? { KeepsAcknowledge(u, s); }
    case Crash => KeepsCrash(u, s);
  }

  lemma {:induction false} KeepsSave(u: Setup, s: State)
    requires Inv(u, s)
    ensures Inv(u, Apply(u, s, SaveCursor))
  {
    hide Events;
    if s.phase.Spooled? {
      CoveredStays(u, s, Apply(u, s, SaveCursor), s.phase.next);
    }
  }

  lemma {:induction false} KeepsCrash(u: Setup, s: State)
    requires Inv(u, s)
    ensures Inv(u, Apply(u, s, Crash))
  {
    hide Events;
    CoveredStays(u, s, Apply(u, s, Crash), s.d.cursor);
  }

  lemma {:induction false} RunKeepsInv(u: Setup, steps: seq<Step>)
    ensures Inv(u, Run(u, steps))
  {
    if steps == [] {
      assert START.log[..0] == [];
      NoEvents(u.parse);
    } else {
      RunKeepsInv(u, steps[..|steps| - 1]);
      KeepsInv(u, Run(u, steps[..|steps| - 1]), steps[|steps| - 1]);
    }
  }

  /**
  In every run, with crashes anywhere, the cursor is a line boundary and every event of the log before
  it is in the spool or was accepted by the server.
  */
  lemma {:induction false} NothingIsLost(u: Setup, steps: seq<Step>, e: Event)
    ensures var s := Run(u, steps);
      && Boundary(s.log, s.d.cursor)
      && (e in Events(u.parse, s.log[..s.d.cursor]) ==> Safe(s, e))
  {
    hide Events, Run;
    RunKeepsInv(u, steps);
  }

  /** Delivering a batch and acknowledging it hands its events over and removes it, and only it, from the spool. */
  lemma {:induction false} DeliveredBatchLeaves(u: Setup, s: State, i: nat)
    requires Inv(u, s) && s.phase.Idle? && i < |s.d.outbound|
    ensures var t := Apply(u, Apply(u, s, Deliver(i)), AcknowledgeSent); var row := s.d.outbound[i];
      && (forall e :: e in row.events ==> e in t.accepted) && t.phase.Idle? && t.d.cursor == s.d.cursor
      && (forall b :: b in t.d.outbound <==> b in s.d.outbound && b != row)
  {
    hide Events, Covered;
    var t := Apply(u, Apply(u, s, Deliver(i)), AcknowledgeSent);
    var row := s.d.outbound[i];
    forall b | b in s.d.outbound ensures b.id == row.id ==> b == row {
      var j :| 0 <= j < |s.d.outbound| && s.d.outbound[j] == b;
      assert i < j || j < i || i == j;
    }
  }

  // ---------------------------------------------------------------- exactly once without crashes

  /** How far the telemetry spooled so far reaches into the log. */
  function Reach(s: State): nat { if s.phase.Spooled? then s.phase.next else s.d.cursor }

  /** The rows inserted so far hold the telemetry of the log up to where they reach. */
  ghost predicate ReadOnce(u: Setup, s: State) {
    Reach(s) <= |s.log| && Telemetry(s.inserted) == Events(u.parse, s.log[..Reach(s)])
  }

  /** One call inserts the collected telemetry, all of it and once. */
  lemma {:induction false} EnqueueInserts(d: Disk, c: Collection, rows: seq<Inserted>)
    ensures var more := NewRows(d, Enqueue(d, c), if ControlDue(d, c) then |c.control| else 0);
      Telemetry(rows + more) == Telemetry(rows) + c.telemetry
  {
    hide ControlDue;
    var controls := if ControlDue(d, c) then |c.control| else 0;
    var more := NewRows(d, Enqueue(d, c), controls);
    if Selected(d, c) == [] {
      assert more == [] && c.telemetry == [];
      assert rows + more == rows;
    } else {
      var row := Inserted(Outbound(d.nextId, Selected(d, c)), controls);
      assert more == [row];
      assert (rows + more)[..|rows|] == rows;
      assert row.row.events[controls..] == c.telemetry;
    }
  }

  lemma {:induction false} StepReadsOnce(u: Setup, s: State, step: Step)
    requires Inv(u, s) && ReadOnce(u, s)
    requires step.Crash? ==> !s.phase.Spooled?
    ensures ReadOnce(u, Apply(u, s, step))
  {
    hide Events, ReadOn, Enqueue, Acknowledge, Telemetry, NewRows, ControlDue;
    KeepsInv(u, s, step);
    var t := Apply(u, s, step);
    if step.Grow? {
      assert t.log[..Reach(s)] == s.log[..Reach(s)];
    } else if step.EnqueueRead? && s.phase.Collected? {
      var c := CollectionOf(step, s.phase.events);
      EnqueueKeepsCursor(s.d, c);
      EnqueueInserts(s.d, c, s.inserted);
      Stretches(u.parse, s.log, 0, s.d.cursor, s.phase.next);
      assert s.log[0..s.phase.next] == s.log[..s.phase.next] && s.log[0..s.d.cursor] == s.log[..s.d.cursor];
    } else if step.AcknowledgeSent? && s.phase.Sent? {
      AcknowledgeKeepsCursor(s.d, s.phase.id);
    }
  }

  lemma {:induction false} EnqueueKeepsCursor(d: Disk, c: Collection)
    ensures Enqueue(d, c).cursor == d.cursor
  {
  }

  lemma {:induction false} AcknowledgeKeepsCursor(d: Disk, id: nat)
    ensures Acknowledge(d, id).cursor == d.cursor
  {
  }

  /** No crash separates an enqueue from saving its cursor. */
  predicate Uninterrupted(u: Setup, steps: seq<Step>) {
    forall i :: 0 <= i < |steps| && steps[i].Crash? ==> !Run(u, steps[..i]).phase.Spooled?
  }

  /**
  A crash repeats telemetry only if it falls between spooling a batch and saving its cursor; otherwise the
  telemetry of the batches inserted so far concatenates to the log before the cursor, each line parsed once.
  */
  lemma {:induction false} SpooledExactlyOnce(u: Setup, steps: seq<Step>)
    requires Uninterrupted(u, steps)
    ensures ReadOnce(u, Run(u, steps))
  {
    hide Events, ReadOnce;
    if steps == [] {
      NothingRead(u);
    } else {
      var n := |steps| - 1;
      var prior := steps[..n];
      forall i | 0 <= i < n && prior[i].Crash? ensures !Run(u, prior[..i]).phase.Spooled? {
        assert prior[..i] == steps[..i] && prior[i] == steps[i];
      }
      SpooledExactlyOnce(u, prior);
      RunKeepsInv(u, prior);
      StepReadsOnce(u, Run(u, prior), steps[n]);
    }
  }

  lemma {:induction false} NothingRead(u: Setup)
    ensures ReadOnce(u, START)
  {
    NoEvents(u.parse);
    assert START.log[..0] == [];
  }

  /** Once a read stands still on lines that fit, the batches hold the whole log, every complete line once. */
  lemma {:induction false} WholeLogSpooled(u: Setup, steps: seq<Step>)
    requires Uninterrupted(u, steps)
    requires var s := Run(u, steps);
      && !s.phase.Spooled? && LinesFit(u.limits, s.log) && s.d.cursor <= |s.log|
      && (var r := ReadOn(u.limits, u.parse, s.log, s.d.cursor, 0, 0); r.Batch? && r.next == s.d.cursor)
    ensures var s := Run(u, steps); Telemetry(s.inserted) == Events(u.parse, s.log[..LastBoundary(s.log)])
  {
    hide Run, Events, Telemetry, ReadOn, LinesFit, LastBoundary, Uninterrupted;
    var s := Run(u, steps);
    SpooledExactlyOnce(u, steps);
    RunKeepsInv(u, steps);
    ReadProgresses(u.limits, u.parse, s.log, s.d.cursor);
  }

  // ---------------------------------------------------------------- the flush loop

  /** The control plane: a request may be lost, and so may the response to one that was accepted. */
  class Server {
    var accepted: seq<Event>
    ghost var failures: nat

    method Ingest(events: seq<Event>) returns (ok: bool)
      modifies this
      ensures failures == old(failures) + if ok then 0 else 1
      ensures ok ==> accepted == old(accepted) + events
      ensures !ok ==> accepted == old(accepted) || accepted == old(accepted) + events
    {
      var reached: bool := *;
      ok := false;
      if reached {
        accepted := accepted + events;
        ok := *;
      }
      failures := failures + if ok then 0 else 1;
    }
  }

  function AllEvents(batches: seq<Outbound>): seq<Event> {
    if batches == [] then [] else AllEvents(batches[..|batches| - 1]) + batches[|batches| - 1].events
  }

  datatype Attempt = Attempt(delivered: nat, failed: bool, deferred: bool)

  lemma {:induction false} WithoutAbsent(batches: seq<Outbound>, id: nat)
    requires forall b :: b in batches ==> b.id != id
    ensures Without(batches, id) == batches
  {
    if batches != [] {
      WithoutAbsent(batches[1..], id);
    }
  }

  lemma {:induction false} WithoutHead(batches: seq<Outbound>)
    requires DistinctBatches(batches) && batches != []
    ensures Without(batches, batches[0].id) == batches[1..]
  {
    forall b | b in batches[1..] ensures b.id != batches[0].id {
      var k :| 0 <= k < |batches[1..]| && batches[1..][k] == b;
      assert batches[k + 1] == b;
    }
    WithoutAbsent(batches[1..], batches[0].id);
  }

  /** The spool and the server after the first `n` of `batches` were delivered. */
  twostate predicate DeliveredFirst(spool: Spool, server: Server, n: nat)
    reads spool, server
  {
    && n <= |old(spool.outbound)|
    && spool.outbound == old(spool.outbound)[n..]
    && server.accepted == old(server.accepted) + AllEvents(old(spool.outbound)[..n])
    && server.failures == old(server.failures)
    && spool.cursor == old(spool.cursor) && spool.nextId == old(spool.nextId)
    && spool.snapshot == Settle(old(spool.snapshot), old(spool.outbound)[..n])
  }

  /** The snapshot record after these batches were acknowledged. */
  function Settle(record: Option<Snapshot>, delivered: seq<Outbound>): Option<Snapshot> {
    if record.Some? && record.value.pending.Some? && (exists b :: b in delivered && b.id == record.value.pending.value)
    then Some(record.value.(pending := None)) else record
  }

  lemma {:induction false} SettleNext(d: Disk, record: Option<Snapshot>, batches: seq<Outbound>, n: nat)
    requires n < |batches| && d.snapshot == Settle(record, batches[..n])
    ensures Acknowledge(d, batches[n].id).snapshot == Settle(record, batches[..n + 1])
    ensures Acknowledge(d, batches[n].id).cursor == d.cursor && Acknowledge(d, batches[n].id).nextId == d.nextId
  {
    assert batches[..n + 1] == batches[..n] + [batches[n]];
  }

  /**
  `_flush`: batches leave the spool from the front, each only after the server accepted it; a failure
  stops the attempt, and at most the batch it stopped at may have been accepted without leaving.
  */
  method Flush(spool: Spool, server: Server, ready: bool, limit: nat) returns (r: Attempt)
    requires DistinctBatches(spool.outbound) && limit >= 1
    modifies spool, server
    ensures r.delivered <= limit && r.delivered <= |old(spool.outbound)|
    ensures spool.outbound == old(spool.outbound)[r.delivered..]
    ensures !r.failed ==> DeliveredFirst(spool, server, r.delivered)
    ensures r.failed ==>
      var sent := old(server.accepted) + AllEvents(old(spool.outbound)[..r.delivered]);
      r.delivered < |old(spool.outbound)| &&
      (server.accepted == sent || server.accepted == sent + old(spool.outbound)[r.delivered].events)
    ensures server.failures == old(server.failures) + if r.failed then 1 else 0
    ensures r.deferred <==> old(spool.outbound) != [] && !ready
    ensures !r.failed && !r.deferred ==> r.delivered == limit || r.delivered == |old(spool.outbound)|
    ensures r.deferred ==> r.delivered == 0
    ensures spool.cursor == old(spool.cursor) && spool.nextId == old(spool.nextId)
    ensures spool.snapshot == Settle(old(spool.snapshot), old(spool.outbound)[..r.delivered])
  {
    hide Acknowledge, AllEvents, Without, Settle;
    NothingDelivered(spool.outbound, spool.snapshot);
    if spool.outbound == [] {
      return Attempt(0, false, false);
    }
    if !ready {
      return Attempt(0, false, true);
    }
    var batches := spool.outbound;
    var count := if |batches| < limit then |batches| else limit;
    var delivered := 0;
    while delivered < count
      invariant delivered <= count
      invariant DeliveredFirst(spool, server, delivered)
    {
      var ok := server.Ingest(batches[delivered].events);
      if !ok {
        return Attempt(delivered, true, false);
      }
      NextDelivered(batches, delivered);
      AcknowledgedOutbound(spool.State(), batches[delivered].id);
      SettleNext(spool.State(), old(spool.snapshot), batches, delivered);
      spool.AcknowledgeBatch(batches[delivered].id);
      delivered := delivered + 1;
    }
    return Attempt(delivered, false, false);
  }

  lemma {:induction false} NothingDelivered(batches: seq<Outbound>, record: Option<Snapshot>)
    ensures AllEvents(batches[..0]) == [] && batches[0..] == batches && Settle(record, batches[..0]) == record
  {
  }

  lemma {:induction false} AcknowledgedOutbound(d: Disk, id: nat)
    ensures Acknowledge(d, id).outbound == Without(d.outbound, id)
  {
  }

  lemma {:induction false} NextDelivered(batches: seq<Outbound>, n: nat)
    requires DistinctBatches(batches) && n < |batches|
    ensures Without(batches[n..], batches[n].id) == batches[n + 1..]
    ensures AllEvents(batches[..n + 1]) == AllEvents(batches[..n]) + batches[n].events
  {
    assert batches[..n + 1][..n] == batches[..n];
    assert batches[n..][1..] == batches[n + 1..];
    WithoutHead(batches[n..]);
  }
}
