/**
The collector's durable spool: outbound batches, the log cursor and the control-snapshot record, and
the flush loop that delivers batches at least once.

Batch identifiers stand for the random ones of the original: every identifier is new.  Rows are kept
in the order in which they were inserted, which is the order of `created_at` under a clock that does
not run backwards.
*/
module AgentSpool {
  import opened Results
  import opened SantaReader

  datatype Outbound = Outbound(id: nat, events: seq<Event>)

  /** The singleton row about the last control snapshot. */
  datatype Snapshot = Snapshot(fingerprint: string, pending: Option<nat>, enqueuedAt: int)

  /** Everything that survives a crash of the agent. */
  datatype Disk = Disk(outbound: seq<Outbound>, cursor: nat, snapshot: Option<Snapshot>, nextId: nat)

  const EMPTY: Disk := Disk([], 0, None, 0)

  predicate Holds(d: Disk, id: nat) { exists b :: b in d.outbound && b.id == id }

  // ---------------------------------------------------------------- transitions

  /** One collection: what the agent asks the spool to store. */
  datatype Collection = Collection(
    control: seq<Event>, telemetry: seq<Event>, fingerprint: string, interval: int, now: int)

  /** A changed snapshot is due; an unchanged one only once its batch is gone and the interval is over. */
  predicate ControlDue(d: Disk, c: Collection) {
    match d.snapshot
    case None => true
    case Some(s) =>
      s.fingerprint != c.fingerprint ||
      (!(s.pending.Some? && Holds(d, s.pending.value)) && c.now >= s.enqueuedAt + c.interval)
  }

  function Selected(d: Disk, c: Collection): seq<Event> {
    if ControlDue(d, c) then c.control + c.telemetry else c.telemetry
  }

  function Enqueue(d: Disk, c: Collection): Disk {
    if Selected(d, c) == [] then d else
    d.(outbound := d.outbound + [Outbound(d.nextId, Selected(d, c))],
       nextId := d.nextId + 1,
       snapshot := if ControlDue(d, c) then Some(Snapshot(c.fingerprint, Some(d.nextId), c.now)) else d.snapshot)
  }

  function Without(batches: seq<Outbound>, id: nat): (r: seq<Outbound>)
    ensures forall b :: b in r <==> b in batches && b.id != id
  {
    if batches == [] then [] else (if batches[0].id == id then [] else [batches[0]]) + Without(batches[1..], id)
  }

  function Acknowledge(d: Disk, id: nat): Disk {
    d.(outbound := Without(d.outbound, id),
       snapshot := if d.snapshot.Some? && d.snapshot.value.pending == Some(id)
                   then Some(d.snapshot.value.(pending := None)) else d.snapshot)
  }

  // ---------------------------------------------------------------- the spool

  datatype SpoolError = BadInterval

  class Spool {
    var outbound: seq<Outbound>
    var cursor: nat
    var snapshot: Option<Snapshot>
    var nextId: nat

    ghost function State(): Disk
      reads this
    {
      Disk(outbound, cursor, snapshot, nextId)
    }

    constructor ()
      ensures State() == EMPTY
    {
      outbound, cursor, snapshot, nextId := [], 0, None, 0;
    }

    method Contains(id: nat) returns (r: bool)
      ensures r == Holds(State(), id)
    {
      for i := 0 to |outbound|
        invariant forall j :: 0 <= j < i ==> outbound[j].id != id
      {
        if outbound[i].id == id {
          assert outbound[i] in outbound;
          return true;
        }
      }
      return false;
    }

    /** `enqueue_collected`: the new batch, and whether the control snapshot was part of it. */
    method EnqueueCollected(c: Collection) returns (r: Result<(Option<nat>, bool), SpoolError>)
      modifies this
      ensures r.Err? <==> c.interval < 60 || c.interval > 86_400
      ensures r.Err? ==> State() == old(State())
      ensures r.Ok? ==> State() == Enqueue(old(State()), c)
      ensures r.Ok? ==>
        r.value ==
        if Selected(old(State()), c) == [] then (None, false) else (Some(old(nextId)), ControlDue(old(State()), c))
      ensures r.Ok? && c.control != [] ==>
        (r.value.1 <==>
         || old(snapshot).None?
         || old(snapshot).value.fingerprint != c.fingerprint
         || (&& (forall b :: b in old(outbound) ==> old(snapshot).value.pending != Some(b.id))
             && c.now >= old(snapshot).value.enqueuedAt + c.interval))
      ensures r.Ok? && r.value.1 ==>
        && r.value.0 == Some(old(nextId))
        && outbound == old(outbound) + [Outbound(old(nextId), c.control + c.telemetry)]
        && snapshot == Some(Snapshot(c.fingerprint, Some(old(nextId)), c.now))
      ensures r.Ok? && !r.value.1 ==>
        && snapshot == old(snapshot)
        && outbound == old(outbound) + (if c.telemetry == [] then [] else [Outbound(old(nextId), c.telemetry)])
    {
      if c.interval < 60 || c.interval > 86_400 {
        return Err(BadInterval);
      }
      var due := snapshot.None? || snapshot.value.fingerprint != c.fingerprint;
      if !due {
        var pendingExists := false;
        if snapshot.value.pending.Some? {
          pendingExists := Contains(snapshot.value.pending.value);
        }
        due := !pendingExists && c.now >= snapshot.value.enqueuedAt + c.interval;
      }
      var selected := if due then c.control + c.telemetry else c.telemetry;
      if selected == [] {
        return Ok((None, false));
      }
      var id := nextId;
      outbound := outbound + [Outbound(id, selected)];
      nextId := nextId + 1;
      if due {
        snapshot := Some(Snapshot(c.fingerprint, Some(id), c.now));
      }
      return Ok((Some(id), due));
    }

    method SaveCursor(offset: nat)
      modifies this
      ensures State() == old(State()).(cursor := offset)
    {
      cursor := offset;
    }

    method AcknowledgeBatch(id: nat)
      modifies this
      ensures State() == Acknowledge(old(State()), id)
    {
      if snapshot.Some? && snapshot.value.pending == Some(id) {
        snapshot := Some(snapshot.value.(pending := None));
      }
      outbound := Without(outbound, id);
    }
  }

  // ---------------------------------------------------------------- coalescing hides no change

  /** What the control plane and the endpoint do to the spool. */
  datatype SpoolStep = Collect(c: Collection) | Acked(id: nat)

  /** The spool with what was observed and enqueued so far, and the batch of the last snapshot. */
  datatype Watched = Watched(d: Disk, observed: seq<string>, enqueued: seq<string>, lastBatch: Option<nat>)

  function Watch(w: Watched, step: SpoolStep): Watched {
    match step
    case Collect(c) =>
      if ControlDue(w.d, c) then
        Watched(Enqueue(w.d, c), w.observed + [c.fingerprint], w.enqueued + [c.fingerprint], Some(w.d.nextId))
      else Watched(Enqueue(w.d, c), w.observed + [c.fingerprint], w.enqueued, w.lastBatch)
    case Acked(id) => w.(d := Acknowledge(w.d, id))
  }

  function WatchAll(steps: seq<SpoolStep>): Watched {
    if steps == [] then Watched(EMPTY, [], [], None)
    else Watch(WatchAll(steps[..|steps| - 1]), steps[|steps| - 1])
  }

  /** A list without the elements that repeat their predecessor. */
  function Squeeze(xs: seq<string>): seq<string> {
    if |xs| < 2 then xs else
    var n := |xs| - 1;
    Squeeze(xs[..n]) + if xs[n] == xs[n - 1] then [] else [xs[n]]
  }

  lemma {:induction false} SqueezeSnoc(xs: seq<string>, x: string)
    ensures Squeeze(xs + [x]) == Squeeze(xs) + if xs != [] && xs[|xs| - 1] == x then [] else [x]
  {
    assert (xs + [x])[..|xs|] == xs;
  }

  ghost predicate Watching(w: Watched) {
    && (forall b :: b in w.d.outbound ==> b.id < w.d.nextId)
    && Squeeze(w.observed) == Squeeze(w.enqueued)
    && match w.d.snapshot
       case None => w.observed == [] && w.enqueued == [] && w.lastBatch == None
       case Some(s) =>
         && w.observed != [] && w.observed[|w.observed| - 1] == s.fingerprint
         && w.enqueued != [] && w.enqueued[|w.enqueued| - 1] == s.fingerprint
         && w.lastBatch.Some? && w.lastBatch.value < w.d.nextId
         && (s.pending == w.lastBatch || (s.pending == None && !Holds(w.d, w.lastBatch.value)))
  }

  predicate ReportsControls(steps: seq<SpoolStep>) {
    forall i :: 0 <= i < |steps| && steps[i].Collect? ==> steps[i].c.control != []
  }

  lemma {:induction false} WatchKeeps(w: Watched, step: SpoolStep)
    requires Watching(w) && (step.Collect? ==> step.c.control != [])
    ensures Watching(Watch(w, step))
  {
    hide Squeeze;
    var v := Watch(w, step);
    match step
    case Collect(c) =>
      SqueezeSnoc(w.observed, c.fingerprint);
      if ControlDue(w.d, c) {
        SqueezeSnoc(w.enqueued, c.fingerprint);
        assert Selected(w.d, c)[0] == c.control[0];
      } else {
        assert Squeeze(w.observed) + [] == Squeeze(w.observed);
      }
    case Acked(id) =>
  }

  lemma {:induction false} WatchedRun(steps: seq<SpoolStep>)
    requires ReportsControls(steps)
    ensures Watching(WatchAll(steps))
  {
    if steps != [] {
      WatchedRun(steps[..|steps| - 1]);
      WatchKeeps(WatchAll(steps[..|steps| - 1]), steps[|steps| - 1]);
    }
  }

  /** In every run, coalescing drops only adjacent repeats: the changes enqueued are the changes observed. */
  lemma {:induction false} CoalescingHidesNoChange(steps: seq<SpoolStep>)
    requires ReportsControls(steps)
    ensures Squeeze(WatchAll(steps).observed) == Squeeze(WatchAll(steps).enqueued)
  {
    WatchedRun(steps);
  }

  /** An unchanged snapshot is enqueued again only after its batch left the spool and the interval passed. */
  lemma {:induction false} RepeatsWaitForDelivery(steps: seq<SpoolStep>, c: Collection)
    requires ReportsControls(steps)
    requires var w := WatchAll(steps);
      w.enqueued != [] && w.enqueued[|w.enqueued| - 1] == c.fingerprint && ControlDue(w.d, c)
    ensures var w := WatchAll(steps);
      && w.lastBatch.Some? && !Holds(w.d, w.lastBatch.value)
      && w.d.snapshot.Some? && c.now >= w.d.snapshot.value.enqueuedAt + c.interval
  {
    WatchedRun(steps);
  }

  /** An unchanged snapshot is sent again as soon as its batch has left the spool and the interval is over. */
  lemma {:induction false} ElapsedRepeatIsSent(d: Disk, c: Collection)
    requires d.snapshot.Some? && d.snapshot.value.fingerprint == c.fingerprint && c.control != []
    requires forall b :: b in d.outbound ==> d.snapshot.value.pending != Some(b.id)
    requires c.now >= d.snapshot.value.enqueuedAt + c.interval
    ensures var t := Enqueue(d, c);
      && t.outbound == d.outbound + [Outbound(d.nextId, c.control + c.telemetry)]
      && t.snapshot == Some(Snapshot(c.fingerprint, Some(d.nextId), c.now))
  {
    assert ControlDue(d, c);
    DueSnapshotIsStored(d, c);
  }

  /** A snapshot that is due is stored: the new row starts with all of its control events. */
  lemma {:induction false} DueSnapshotIsStored(d: Disk, c: Collection)
    requires ControlDue(d, c) && c.control != []
    ensures var t := Enqueue(d, c);
      && |t.outbound| == |d.outbound| + 1 && t.outbound[..|d.outbound|] == d.outbound
      && t.outbound[|d.outbound|].id == d.nextId && c.control <= t.outbound[|d.outbound|].events
      && t.snapshot == Some(Snapshot(c.fingerprint, Some(d.nextId), c.now))
  {
    assert Selected(d, c)[0] == c.control[0];
  }

  /** Telemetry is never coalesced: whatever was collected is in the batch that the call inserts. */
  lemma {:induction false} TelemetryIsEnqueued(d: Disk, c: Collection, e: Event)
    requires e in c.telemetry
    ensures exists b :: b in Enqueue(d, c).outbound && e in b.events
    ensures forall b :: b in d.outbound ==> b in Enqueue(d, c).outbound
  {
    var b := Outbound(d.nextId, Selected(d, c));
    assert e in b.events;
    assert Enqueue(d, c).outbound == d.outbound + [b];
  }
}
