/**
Idempotent event ingestion: `persistEvents` and `enqueueEventIds` over a database that other writers
change between any two of its statements.

One tenant is modelled.  Other writers insert events and mark them processed; they neither delete rows
nor change a payload hash, and a statement or batch is atomic.  The trigger that refuses a conflicting
payload makes the whole batch fail.
*/
module EventIngestion {
  import opened Results

  datatype Row = Row(hash: nat, processed: bool)

  datatype Submitted = Submitted(id: string, hash: nat, oversized: bool)

  /** One event identity of a request, with how often it was submitted. */
  datatype Unique = Unique(id: string, hash: nat, occurrences: nat)

  datatype IngestError = Oversized | IdentityConflict | QueueFailed

  type Rows = map<string, Row>

  /** Rows stay, with their hashes, and what was processed stays so. */
  predicate Grows(before: Rows, after: Rows) {
    forall k :: k in before ==>
      k in after && after[k].hash == before[k].hash && (before[k].processed ==> after[k].processed)
  }

  lemma {:induction false} GrowsOn(a: Rows, b: Rows, c: Rows)
    ensures Grows(a, a)
    ensures Grows(a, b) && Grows(b, c) ==> Grows(a, c)
  {
  }

  predicate Stored(rows: Rows, u: Unique) { u.id in rows && rows[u.id].hash == u.hash }

  /** The identity is taken by another payload. */
  predicate Clashes(rows: Rows, u: Unique) { u.id in rows && rows[u.id].hash != u.hash }

  // ---------------------------------------------------------------- multiplicities

  function Copies(id: string, n: nat): multiset<string> { multiset{}[id := n] }

  /** The submitted identities behind a list of unique ones. */
  function Expand(us: seq<Unique>): multiset<string> {
    if us == [] then multiset{} else Expand(us[..|us| - 1]) + Copies(us[|us| - 1].id, us[|us| - 1].occurrences)
  }

  function Replicate(id: string, n: nat): (r: seq<string>)
    ensures multiset(r) == Copies(id, n)
    ensures forall x :: x in r ==> x == id
  {
    if n == 0 then [] else Replicate(id, n - 1) + [id]
  }

  lemma {:induction false} ExpandSnoc(us: seq<Unique>, u: Unique)
    ensures Expand(us + [u]) == Expand(us) + Copies(u.id, u.occurrences)
  {
    assert (us + [u])[..|us|] == us;
  }

  lemma {:induction false} ExpandAppend(a: seq<Unique>, b: seq<Unique>)
    ensures Expand(a + b) == Expand(a) + Expand(b)
  {
    if b == [] {
      assert a + b == a;
    } else {
      var n := |b| - 1;
      assert a + b == (a + b[..n]) + [b[n]];
      ExpandAppend(a, b[..n]);
      ExpandSnoc(a + b[..n], b[n]);
    }
  }

  lemma {:induction false} ExpandPrefix(us: seq<Unique>, i: nat)
    requires i < |us|
    ensures Expand(us[..i + 1]) == Expand(us[..i]) + Copies(us[i].id, us[i].occurrences)
  {
    assert us[..i + 1] == us[..i] + [us[i]];
    ExpandSnoc(us[..i], us[i]);
  }

  /** One more occurrence of a known identity. */
  lemma {:induction false} ExpandBump(us: seq<Unique>, k: nat)
    requires k < |us|
    ensures Expand(us[k := us[k].(occurrences := us[k].occurrences + 1)]) == Expand(us) + multiset{us[k].id}
  {
    var bumped := us[k].(occurrences := us[k].occurrences + 1);
    assert us == us[..k] + [us[k]] + us[k + 1..];
    assert us[k := bumped] == us[..k] + [bumped] + us[k + 1..];
    ExpandAppend(us[..k] + [us[k]], us[k + 1..]);
    ExpandAppend(us[..k] + [bumped], us[k + 1..]);
    ExpandSnoc(us[..k], us[k]);
    ExpandSnoc(us[..k], bumped);
    assert Copies(us[k].id, us[k].occurrences + 1) == Copies(us[k].id, us[k].occurrences) + multiset{us[k].id};
  }

  /** Every occurrence of `us` is accepted, a duplicate, or still to be decided. */
  ghost predicate Balance(accepted: seq<string>, duplicates: seq<string>, open: seq<Unique>, us: seq<Unique>) {
    multiset(accepted) + multiset(duplicates) + Expand(open) == Expand(us)
  }

  lemma {:induction false} BalanceNothing(us: seq<Unique>)
    ensures Balance([], [], [], us[..0]) && us[..|us|] == us
  {
    assert us[..0] == [];
  }

  lemma {:induction false} BalanceAccept(a: seq<string>, d: seq<string>, open: seq<Unique>, us: seq<Unique>, n: nat)
    requires n < |us| && us[n].occurrences >= 1 && Balance(a, d, open, us[..n])
    ensures Balance(a + [us[n].id], d + Replicate(us[n].id, us[n].occurrences - 1), open, us[..n + 1])
  {
    hide Expand;
    ExpandPrefix(us, n);
    assert multiset{us[n].id} + Copies(us[n].id, us[n].occurrences - 1) == Copies(us[n].id, us[n].occurrences);
  }

  lemma {:induction false} BalanceDuplicate(a: seq<string>, d: seq<string>, open: seq<Unique>, us: seq<Unique>, n: nat)
    requires n < |us| && Balance(a, d, open, us[..n])
    ensures Balance(a, d + Replicate(us[n].id, us[n].occurrences), open, us[..n + 1])
  {
    hide Expand;
    ExpandPrefix(us, n);
  }

  lemma {:induction false} BalanceOpen(a: seq<string>, d: seq<string>, open: seq<Unique>, us: seq<Unique>, n: nat)
    requires n < |us| && Balance(a, d, open, us[..n])
    ensures Balance(a, d, open + [us[n]], us[..n + 1])
  {
    hide Expand;
    ExpandPrefix(us, n);
    ExpandSnoc(open, us[n]);
  }

  lemma {:induction false} BalanceAppend(
      a: seq<string>, d: seq<string>, open: seq<Unique>, us: seq<Unique>,
      a': seq<string>, d': seq<string>, open': seq<Unique>, us': seq<Unique>)
    requires Balance(a, d, open, us) && Balance(a', d', open', us')
    ensures Balance(a + a', d + d', open + open', us + us')
  {
    hide Expand;
    ExpandAppend(open, open');
    ExpandAppend(us, us');
  }

  /** What was left open is decided in turn. */
  lemma {:induction false} BalanceChain(
      d: seq<string>, open: seq<Unique>, us: seq<Unique>, a': seq<string>, d': seq<string>, open': seq<Unique>,
        d'': seq<string>)
    requires Balance([], d, open, us) && Balance(a', d', open', open) && Balance([], d'', [], open')
    ensures multiset(a') + multiset(d + d' + d'') == Expand(us)
  {
    assert Expand([]) == multiset{};
  }

  // ---------------------------------------------------------------- the database

  class Database {
    var rows: Rows

    /** What other requests and processors may do between two statements. */
    method Interfere()
      modifies this
      ensures Grows(old(rows), rows)
    {
      var others: Rows := *;
      rows := map k | k in rows.Keys + others.Keys ::
        if k !in rows then others[k]
        else if k in others then rows[k].(processed := rows[k].processed || others[k].processed)
        else rows[k];
    }

    /** `SELECT event_id, payload_sha256 ... IN (chunk)` */
    method SelectHashes(chunk: seq<string>) returns (found: map<string, nat>)
      modifies this
      ensures Grows(old(rows), rows)
      ensures forall k :: k in found ==> k in rows && found[k] == rows[k].hash
      ensures forall k :: k in chunk && k in old(rows) ==> k in found
    {
      Interfere();
      found := map k | k in chunk && k in rows :: rows[k].hash;
    }

    /** `SELECT event_id ... WHERE processed_at IS NULL AND event_id IN (chunk)` */
    method SelectPending(chunk: seq<string>) returns (pending: seq<string>)
      modifies this
      ensures Grows(old(rows), rows)
      ensures forall k :: k in pending <==> k in chunk && k in rows && !rows[k].processed
    {
      Interfere();
      ghost var now := rows;
      pending := [];
      for i := 0 to |chunk|
        invariant rows == now
        invariant forall k :: k in pending <==> k in chunk[..i] && k in rows && !rows[k].processed
      {
        if chunk[i] in rows && !rows[chunk[i]].processed {
          pending := pending + [chunk[i]];
        }
      }
    }

    /** One atomic batch of `INSERT OR IGNORE`; a conflicting payload aborts all of it. */
    method InsertBatch(chunk: seq<Unique>) returns (r: Option<seq<bool>>)
      requires Distinct(chunk)
      modifies this
      ensures Grows(old(rows), rows)
      ensures r.Some? ==> |r.value| == |chunk|
      ensures r.Some? ==> forall i :: 0 <= i < |chunk| && r.value[i] ==> chunk[i].id !in old(rows)
      ensures r.Some? ==> forall i :: 0 <= i < |chunk| ==> Stored(rows, chunk[i])
      ensures r.None? ==> exists i :: 0 <= i < |chunk| && Clashes(rows, chunk[i])
    {
      hide NewRows, Grows, Stored;
      Interfere();
      GrowsKeeps(old(rows), rows);
      if exists i :: 0 <= i < |chunk| && Clashes(rows, chunk[i]) {
        return None;
      }
      var before := rows;
      var changed := seq(|chunk|, i requires 0 <= i < |chunk| => chunk[i].id !in before);
      NewRowsStored(before, chunk);
      rows := before + NewRows(before, chunk);
      GrowsOn(old(rows), before, rows);
      return Some(changed);
    }
  }

  /** The rows that a batch inserts: those whose identity is not there yet. */
  function NewRows(rows: Rows, chunk: seq<Unique>): Rows
    requires Distinct(chunk)
  {
    map u | u in chunk && u.id !in rows :: u.id := Row(u.hash, false)
  }

  lemma {:induction false} GrowsKeeps(a: Rows, b: Rows)
    requires Grows(a, b)
    ensures forall k :: k in a ==> k in b
  {
  }

  lemma {:induction false} NewRowsStored(rows: Rows, chunk: seq<Unique>)
    requires Distinct(chunk) && !exists i :: 0 <= i < |chunk| && Clashes(rows, chunk[i])
    ensures Grows(rows, rows + NewRows(rows, chunk))
    ensures forall i :: 0 <= i < |chunk| ==> Stored(rows + NewRows(rows, chunk), chunk[i])
  {
    var after := rows + NewRows(rows, chunk);
    forall i | 0 <= i < |chunk| ensures Stored(after, chunk[i]) {
      assert !Clashes(rows, chunk[i]);
      if chunk[i].id !in rows {
        assert chunk[i] in chunk && chunk[i].id in NewRows(rows, chunk);
      }
    }
  }

  predicate Distinct(us: seq<Unique>) { forall i, j :: 0 <= i < j < |us| ==> us[i].id != us[j].id }

  // ---------------------------------------------------------------- the queue

  function Flatten(messages: seq<seq<string>>): seq<string> {
    if messages == [] then [] else Flatten(messages[..|messages| - 1]) + messages[|messages| - 1]
  }

  const IDS_PER_MESSAGE: nat := 50
  const MESSAGES_PER_SEND: nat := 25

  class Queue {
    var messages: seq<seq<string>>
    ghost var failures: nat

    /** A failed send may have reached the queue all the same. */
    method SendBatch(batch: seq<seq<string>>) returns (ok: bool)
      requires |batch| <= MESSAGES_PER_SEND
      modifies this
      ensures ok ==> messages == old(messages) + batch
      ensures failures == old(failures) + if ok then 0 else 1
      ensures messages == old(messages) || messages == old(messages) + batch
    {
      var reached: bool := *;
      ok := false;
      if reached {
        messages := messages + batch;
        ok := *;
      }
      failures := failures + if ok then 0 else 1;
    }
  }

  predicate Bounded(messages: seq<seq<string>>) {
    forall i :: 0 <= i < |messages| ==> 0 < |messages[i]| <= IDS_PER_MESSAGE
  }

  lemma {:induction false} FlattenSnoc(messages: seq<seq<string>>, m: seq<string>)
    ensures Flatten(messages + [m]) == Flatten(messages) + m
  {
    assert (messages + [m])[..|messages|] == messages;
  }

  /** The queue holds what it held, and the first `n` of `sent`. */
  predicate Queued(before: seq<seq<string>>, after: seq<seq<string>>, sent: seq<seq<string>>, n: nat) {
    n <= |sent| && after == before + sent[..n]
  }

  /**
  `enqueueEventIds`: messages of at most 50 identities that flatten back to the list; all of them are sent,
  or a send fails and some first ones are there.
  */
  method EnqueueEventIds(queue: Queue, ids: seq<string>) returns (ok: bool, sent: seq<seq<string>>)
    modifies queue
    ensures ok ==> queue.messages == old(queue.messages) + sent
    ensures queue.failures == old(queue.failures) + if ok then 0 else 1
    ensures exists n :: Queued(old(queue.messages), queue.messages, sent, n)
    ensures Bounded(sent) && Flatten(sent) == ids
    ensures forall i :: 0 <= i < |sent| ==> 1 <= |sent[i]| <= 50
  {
    sent := [];
    var offset := 0;
    while offset < |ids|
      invariant offset <= |ids|
      invariant Bounded(sent) && Flatten(sent) == ids[..offset]
      invariant queue.messages == old(queue.messages) && queue.failures == old(queue.failures)
    {
      var end := if offset + IDS_PER_MESSAGE <= |ids| then offset + IDS_PER_MESSAGE else |ids|;
      FlattenSnoc(sent, ids[offset..end]);
      assert ids[..offset] + ids[offset..end] == ids[..end];
      sent := sent + [ids[offset..end]];
      offset := end;
    }
    assert ids[..|ids|] == ids;
    var at := 0;
    assert old(queue.messages) + sent[..0] == old(queue.messages);
    while at < |sent|
      invariant at <= |sent|
      invariant Queued(old(queue.messages), queue.messages, sent, at) && queue.failures == old(queue.failures)
    {
      var end := if at + MESSAGES_PER_SEND <= |sent| then at + MESSAGES_PER_SEND else |sent|;
      assert old(queue.messages) + sent[..at] + sent[at..end] == old(queue.messages) + sent[..end];
      var delivered := queue.SendBatch(sent[at..end]);
      if !delivered {
        assert Queued(old(queue.messages), queue.messages, sent, at) ||
          Queued(old(queue.messages), queue.messages, sent, end);
        return false, sent;
      }
      at := end;
    }
    assert sent[..|sent|] == sent;
    return true, sent;
  }

  // ---------------------------------------------------------------- phases of persistEvents

  function Ids(events: seq<Submitted>): seq<string> { seq(|events|, i requires 0 <= i < |events| => events[i].id) }

  predicate Lists(us: seq<Unique>, id: string, hash: nat) {
    exists i :: 0 <= i < |us| && us[i].id == id && us[i].hash == hash
  }

  /** Each identity stands once, with the hash that every submission of it carries. */
  ghost predicate Normalized(events: seq<Submitted>, us: seq<Unique>) {
    && Distinct(us)
    && (forall i :: 0 <= i < |us| ==> us[i].occurrences >= 1)
    && Expand(us) == multiset(Ids(events))
    && (forall j :: 0 <= j < |events| ==> Lists(us, events[j].id, events[j].hash))
    && (forall i :: 0 <= i < |us| ==> Submits(events, us[i].id, us[i].hash))
  }

  predicate Submits(events: seq<Submitted>, id: string, hash: nat) {
    exists j :: 0 <= j < |events| && events[j].id == id && events[j].hash == hash
  }

  /** The state of the grouping loop after some events: `index` is the map of the original. */
  ghost predicate Grouped(events: seq<Submitted>, us: seq<Unique>, index: map<string, nat>) {
    && Normalized(events, us)
    && (forall k :: k in index ==> index[k] < |us| && us[index[k]].id == k)
    && (forall i :: 0 <= i < |us| ==> us[i].id in index)
  }

  lemma {:induction false} IdsSnoc(events: seq<Submitted>, e: Submitted)
    ensures multiset(Ids(events + [e])) == multiset(Ids(events)) + multiset{e.id}
  {
    assert Ids(events + [e]) == Ids(events) + [e.id];
  }

  lemma {:induction false} SubmitsStays(events: seq<Submitted>, e: Submitted, id: string, hash: nat)
    ensures Submits(events, id, hash) ==> Submits(events + [e], id, hash)
    ensures Submits(events + [e], e.id, e.hash)
  {
    var all := events + [e];
    assert all[|events|] == e;
    if Submits(events, id, hash) {
      var j :| 0 <= j < |events| && events[j].id == id && events[j].hash == hash;
      assert all[j] == events[j];
    }
  }

  lemma {:induction false} ListsAt(us: seq<Unique>, k: nat)
    requires k < |us|
    ensures Lists(us, us[k].id, us[k].hash)
  {
  }

  lemma {:induction false} ListsStays(us: seq<Unique>, vs: seq<Unique>, id: string, hash: nat)
    requires Lists(us, id, hash) && |us| <= |vs|
    requires forall i :: 0 <= i < |us| ==> vs[i].id == us[i].id && vs[i].hash == us[i].hash
    ensures Lists(vs, id, hash)
  {
    var i :| 0 <= i < |us| && us[i].id == id && us[i].hash == hash;
    assert vs[i].id == id && vs[i].hash == hash;
  }

  lemma {:induction false} GroupedNew(events: seq<Submitted>, us: seq<Unique>, index: map<string, nat>, e: Submitted)
    requires Grouped(events, us, index) && e.id !in index
    ensures Grouped(events + [e], us + [Unique(e.id, e.hash, 1)], index[e.id := |us|])
  {
    hide Expand, Submits, Lists;
    var u := Unique(e.id, e.hash, 1);
    var vs := us + [u];
    ExpandSnoc(us, u);
    assert Copies(e.id, 1) == multiset{e.id};
    IdsSnoc(events, e);
    assert vs[|us|] == u;
    forall j | 0 <= j < |events + [e]| ensures Lists(vs, (events + [e])[j].id, (events + [e])[j].hash) {
      if j < |events| {
        ListsStays(us, vs, events[j].id, events[j].hash);
      } else {
        ListsAt(vs, |us|);
      }
    }
    forall i | 0 <= i < |vs| ensures Submits(events + [e], vs[i].id, vs[i].hash) {
      SubmitsStays(events, e, vs[i].id, vs[i].hash);
    }
  }

  lemma {:induction false} GroupedAgain(events: seq<Submitted>, us: seq<Unique>, index: map<string, nat>, e: Submitted)
    requires Grouped(events, us, index) && e.id in index && us[index[e.id]].hash == e.hash
    ensures var k := index[e.id];
      Grouped(events + [e], us[k := us[k].(occurrences := us[k].occurrences + 1)], index)
  {
    hide Expand, Submits, Lists;
    var k := index[e.id];
    var vs := us[k := us[k].(occurrences := us[k].occurrences + 1)];
    ExpandBump(us, k);
    IdsSnoc(events, e);
    assert forall i :: 0 <= i < |us| ==> vs[i].id == us[i].id && vs[i].hash == us[i].hash;
    forall j | 0 <= j < |events + [e]| ensures Lists(vs, (events + [e])[j].id, (events + [e])[j].hash) {
      if j < |events| {
        ListsStays(us, vs, events[j].id, events[j].hash);
      } else {
        ListsAt(vs, k);
      }
    }
    forall i | 0 <= i < |vs| ensures Submits(events + [e], vs[i].id, vs[i].hash) {
      SubmitsStays(events, e, us[i].id, us[i].hash);
    }
  }

  /** Two submissions of one identity differ in their payload. */
  predicate SelfConflict(events: seq<Submitted>) {
    exists i, j :: 0 <= i < |events| && 0 <= j < |events| && events[i].id == events[j].id &&
      events[i].hash != events[j].hash
  }

  /** The grouping loop of `persistEvents`. */
  method Normalize(events: seq<Submitted>) returns (r: Option<seq<Unique>>)
    ensures r.Some? ==> Normalized(events, r.value)
    ensures r.None? ==> SelfConflict(events)
  {
    hide Grouped, Expand;
    var us: seq<Unique> := [];
    var index: map<string, nat> := map[];
    NothingGrouped(events);
    for n := 0 to |events|
      invariant Grouped(events[..n], us, index)
    {
      var e := events[n];
      GroupedShape(events[..n], us, index);
      assert events[..n + 1] == events[..n] + [e];
      if e.id !in index {
        GroupedNew(events[..n], us, index, e);
        index := index[e.id := |us|];
        us := us + [Unique(e.id, e.hash, 1)];
      } else {
        var k := index[e.id];
        if us[k].hash != e.hash {
          var j :| 0 <= j < n && events[..n][j].id == us[k].id && events[..n][j].hash == us[k].hash;
          assert events[j].id == events[n].id && events[j].hash != events[n].hash;
          return None;
        }
        GroupedAgain(events[..n], us, index, e);
        us := us[k := us[k].(occurrences := us[k].occurrences + 1)];
      }
    }
    assert events[..|events|] == events;
    GroupedShape(events, us, index);
    return Some(us);
  }

  lemma {:induction false} NothingGrouped(events: seq<Submitted>)
    ensures Grouped(events[..0], [], map[])
  {
    assert Ids(events[..0]) == [];
  }

  lemma {:induction false} GroupedShape(events: seq<Submitted>, us: seq<Unique>, index: map<string, nat>)
    requires Grouped(events, us, index)
    ensures Normalized(events, us)
    ensures forall k :: k in index ==> index[k] < |us| && us[index[k]].id == k && Submits(events, k, us[index[k]].hash)
  {
    hide Submits, Expand;
  }

  ghost predicate AllStored(rows: Rows, us: seq<Unique>) { forall i :: 0 <= i < |us| ==> Stored(rows, us[i]) }

  lemma {:induction false} StoredStays(before: Rows, after: Rows, us: seq<Unique>)
    requires Grows(before, after) && AllStored(before, us)
    ensures AllStored(after, us)
  {
    assert forall i :: 0 <= i < |us| ==> Stored(before, us[i]);
  }

  function UniqueIds(us: seq<Unique>): seq<string> { seq(|us|, i requires 0 <= i < |us| => us[i].id) }

  /** `existingEventHashes`: lookups in chunks of 90, with interference in between. */
  method ExistingHashes(db: Database, ids: seq<string>) returns (found: map<string, nat>)
    modifies db
    ensures Grows(old(db.rows), db.rows)
    ensures forall k :: k in found ==> k in db.rows && found[k] == db.rows[k].hash
    ensures forall k :: k in ids && k in old(db.rows) ==> k in found
  {
    found := map[];
    var offset := 0;
    while offset < |ids|
      invariant offset <= |ids|
      invariant Grows(old(db.rows), db.rows)
      invariant forall k :: k in found ==> k in db.rows && found[k] == db.rows[k].hash
      invariant forall k :: k in ids[..offset] && k in old(db.rows) ==> k in found
    {
      var end := if offset + 90 <= |ids| then offset + 90 else |ids|;
      var chunk := ids[offset..end];
      assert ids[..end] == ids[..offset] + chunk;
      var some := db.SelectHashes(chunk);
      found := found + some;
      offset := end;
    }
    assert ids[..|ids|] == ids;
  }

  predicate NoRepeats(xs: seq<string>) { forall i, j :: 0 <= i < j < |xs| ==> xs[i] != xs[j] }

  /** All of `xs` are identities of `us`. */
  predicate Within(xs: seq<string>, us: seq<Unique>) { forall x :: x in xs ==> x in UniqueIds(us) }

  lemma {:induction false} WithinNothing(us: seq<Unique>) ensures Within([], us) {}

  lemma {:induction false} WithinGrows(xs: seq<string>, us: seq<Unique>, n: nat)
    requires n < |us| && Within(xs, us[..n])
    ensures Within(xs, us[..n + 1]) && Within(xs + [us[n].id], us[..n + 1])
  {
    assert UniqueIds(us[..n + 1]) == UniqueIds(us[..n]) + [us[n].id];
  }

  /** Splits what a request brings into new identities and known ones, which must match. */
  method SplitKnown(us: seq<Unique>, known: map<string, nat>) returns (clash: bool, candidates: seq<Unique>,
      duplicates: seq<string>)
    requires Distinct(us)
    ensures clash ==> exists i :: 0 <= i < |us| && us[i].id in known && known[us[i].id] != us[i].hash
    ensures !clash ==> Balance([], duplicates, candidates, us)
    ensures !clash ==> Distinct(candidates) && (forall u :: u in candidates ==> u in us)
    ensures !clash ==> forall i :: 0 <= i < |us| ==>
      us[i] in candidates || (us[i].id in known && known[us[i].id] == us[i].hash)
  {
    hide Balance;
    clash, candidates, duplicates := false, [], [];
    BalanceNothing(us);
    for n := 0 to |us|
      invariant Balance([], duplicates, candidates, us[..n])
      invariant Distinct(candidates) && forall u :: u in candidates ==> u in us[..n]
      invariant forall i :: 0 <= i < n ==> us[i] in candidates || (us[i].id in known && known[us[i].id] == us[i].hash)
    {
      var u := us[n];
      assert us[..n + 1] == us[..n] + [u];
      if u.id !in known {
        BalanceOpen([], duplicates, candidates, us, n);
        DistinctGrows(candidates, us, n);
        candidates := candidates + [u];
      } else if known[u.id] != u.hash {
        clash := true;
        return;
      } else {
        BalanceDuplicate([], duplicates, candidates, us, n);
        duplicates := duplicates + Replicate(u.id, u.occurrences);
      }
    }
  }

  lemma {:induction false} DistinctGrows(candidates: seq<Unique>, us: seq<Unique>, n: nat)
    requires Distinct(us) && n < |us| && Distinct(candidates) && forall u :: u in candidates ==> u in us[..n]
    ensures Distinct(candidates + [us[n]])
  {
    forall u | u in candidates ensures u.id != us[n].id {
      var k :| 0 <= k < n && us[..n][k] == u;
      assert us[k] == u;
    }
  }

  /** The outcomes of one batch of inserts, row by row. */
  method Tally(chunk: seq<Unique>, changed: seq<bool>) returns (accepted: seq<string>, duplicates: seq<string>,
      raced: seq<Unique>)
    requires |changed| == |chunk| && Distinct(chunk) && forall i :: 0 <= i < |chunk| ==> chunk[i].occurrences >= 1
    ensures Balance(accepted, duplicates, raced, chunk)
    ensures NoRepeats(accepted) && Within(accepted, chunk)
    ensures forall x :: x in accepted ==> exists i :: 0 <= i < |chunk| && changed[i] && chunk[i].id == x
    ensures forall u :: u in raced ==> u in chunk
  {
    hide Balance, Within;
    accepted, duplicates, raced := [], [], [];
    BalanceNothing(chunk);
    WithinNothing(chunk[..0]);
    for n := 0 to |chunk|
      invariant Balance(accepted, duplicates, raced, chunk[..n])
      invariant NoRepeats(accepted) && Within(accepted, chunk[..n])
      invariant forall x :: x in accepted ==> exists i :: 0 <= i < n && changed[i] && chunk[i].id == x
      invariant forall u :: u in raced ==> u in chunk
    {
      var u := chunk[n];
      WithinGrows(accepted, chunk, n);
      if changed[n] {
        BalanceAccept(accepted, duplicates, raced, chunk, n);
        FreshId(accepted, chunk, n);
        accepted := accepted + [u.id];
        duplicates := duplicates + Replicate(u.id, u.occurrences - 1);
      } else {
        BalanceOpen(accepted, duplicates, raced, chunk, n);
        raced := raced + [u];
      }
    }
  }

  lemma {:induction false} FreshId(xs: seq<string>, us: seq<Unique>, n: nat)
    requires Distinct(us) && n < |us| && Within(xs, us[..n])
    ensures us[n].id !in xs
  {
    forall x | x in xs ensures x != us[n].id {
      var k :| 0 <= k < n && UniqueIds(us[..n])[k] == x;
      assert us[k].id == x;
    }
  }

  /** What the insert loop has established about the identities it has been through. */
  ghost predicate Inserted(rows: Rows, us: seq<Unique>, offset: nat, accepted: seq<string>) {
    offset <= |us| && NoRepeats(accepted) && Within(accepted, us[..offset]) && AllStored(rows, us[..offset])
  }

  /** None of these identities were stored. */
  ghost predicate Absent(xs: seq<string>, rows: Rows) { forall x :: x in xs ==> x !in rows }

  lemma {:induction false} AbsentEarlier(xs: seq<string>, before: Rows, after: Rows)
    requires Grows(before, after) && Absent(xs, after)
    ensures Absent(xs, before)
  {
  }

  lemma {:induction false} NothingInserted(rows: Rows, us: seq<Unique>)
    ensures Inserted(rows, us, 0, [])
  {
  }

  lemma {:induction false} InsertedMore(before: Rows, after: Rows, us: seq<Unique>, offset: nat, end: nat,
      xs: seq<string>, ys: seq<string>)
    requires Inserted(before, us, offset, xs) && Grows(before, after) && Distinct(us) && offset <= end <= |us|
    requires NoRepeats(ys) && Within(ys, us[offset..end]) && AllStored(after, us[offset..end])
    ensures Inserted(after, us, end, xs + ys)
  {
    hide Within, NoRepeats, Stored, Grows;
    StoredStays(before, after, us[..offset]);
    AcceptedApart(xs, ys, us, offset, end);
    forall i | 0 <= i < end ensures Stored(after, us[..end][i]) {
      if i < offset {
        assert Stored(after, us[..offset][i]);
      } else {
        assert Stored(after, us[offset..end][i - offset]);
      }
    }
  }

  /** The insert loop: atomic batches of 100, with interference in between. */
  method InsertAll(db: Database, us: seq<Unique>)
    returns (clash: bool, accepted: seq<string>, duplicates: seq<string>, raced: seq<Unique>)
    requires Distinct(us) && forall i :: 0 <= i < |us| ==> us[i].occurrences >= 1
    modifies db
    ensures Grows(old(db.rows), db.rows)
    ensures clash ==> exists i :: 0 <= i < |us| && Clashes(db.rows, us[i])
    ensures !clash ==> Balance(accepted, duplicates, raced, us)
    ensures !clash ==> NoRepeats(accepted) && AllStored(db.rows, us) && forall u :: u in raced ==> u in us
    ensures !clash ==> Absent(accepted, old(db.rows))
  {
    hide Balance, Grows, Inserted;
    clash, accepted, duplicates, raced := false, [], [], [];
    BalanceNothing(us);
    NothingInserted(db.rows, us);
    GrowsOn(db.rows, db.rows, db.rows);
    var offset := 0;
    while offset < |us|
      invariant offset <= |us| && Grows(old(db.rows), db.rows)
      invariant Balance(accepted, duplicates, raced, us[..offset])
      invariant Inserted(db.rows, us, offset, accepted) && Absent(accepted, old(db.rows))
      invariant forall u :: u in raced ==> u in us
    {
      var end := if offset + 100 <= |us| then offset + 100 else |us|;
      var chunk := us[offset..end];
      assert us[..end] == us[..offset] + chunk;
      ghost var before := db.rows;
      var changed := db.InsertBatch(chunk);
      GrowsOn(old(db.rows), before, db.rows);
      if changed.None? {
        clash := true;
        var i :| 0 <= i < |chunk| && Clashes(db.rows, chunk[i]);
        assert us[offset + i] == chunk[i];
        return;
      }
      var a, d, x := Tally(chunk, changed.value);
      AbsentEarlier(a, old(db.rows), before);
      InsertedMore(before, db.rows, us, offset, end, accepted, a);
      BalanceAppend(accepted, duplicates, raced, us[..offset], a, d, x, chunk);
      accepted, duplicates, raced := accepted + a, duplicates + d, raced + x;
      offset := end;
    }
    EverythingInserted(db.rows, us, accepted);
  }

  lemma {:induction false} EverythingInserted(rows: Rows, us: seq<Unique>, accepted: seq<string>)
    requires Inserted(rows, us, |us|, accepted)
    ensures NoRepeats(accepted) && AllStored(rows, us)
  {
    hide Stored;
    assert us[..|us|] == us;
  }

  lemma {:induction false} AcceptedApart(xs: seq<string>, ys: seq<string>, us: seq<Unique>, offset: nat, end: nat)
    requires Distinct(us) && offset <= end <= |us|
    requires NoRepeats(xs) && NoRepeats(ys) && Within(xs, us[..offset]) && Within(ys, us[offset..end])
    ensures NoRepeats(xs + ys) && Within(xs + ys, us[..end])
  {
    assert UniqueIds(us[..end]) == UniqueIds(us[..offset]) + UniqueIds(us[offset..end]);
    forall x, y | x in xs && y in ys ensures x != y {
      var i :| 0 <= i < offset && UniqueIds(us[..offset])[i] == x;
      var j :| 0 <= j < end - offset && UniqueIds(us[offset..end])[j] == y;
      assert us[i].id == x && us[offset + j].id == y;
    }
    var all := xs + ys;
    forall i, j | 0 <= i < j < |all| ensures all[i] != all[j] {
      if i < |xs| <= j {
        assert all[i] in xs && all[j] in ys;
      } else if |xs| <= i {
        assert all[i] == ys[i - |xs|] && all[j] == ys[j - |xs|];
      }
    }
  }

  /**
  Identities lost to another writer between lookup and insert are looked up again.  Since the insert
  of a conflicting payload aborts its batch, the comparison with the stored payload never fails.
  */
  method ResolveRaced(db: Database, raced: seq<Unique>) returns (clash: bool, duplicates: seq<string>)
    requires AllStored(db.rows, raced)
    modifies db
    ensures Grows(old(db.rows), db.rows)
    ensures !clash && Balance([], duplicates, [], raced)
  {
    hide Balance;
    var found := ExistingHashes(db, UniqueIds(raced));
    StoredStays(old(db.rows), db.rows, raced);
    ghost var looked := db.rows;
    clash, duplicates := false, [];
    BalanceNothing(raced);
    for n := 0 to |raced|
      invariant !clash && db.rows == looked
      invariant Balance([], duplicates, [], raced[..n])
    {
      var u := raced[n];
      assert UniqueIds(raced)[n] == u.id && Stored(old(db.rows), u) && Stored(looked, u);
      clash := clash || u.id !in found || found[u.id] != u.hash;
      BalanceDuplicate([], duplicates, [], raced, n);
      duplicates := duplicates + Replicate(u.id, u.occurrences);
    }
  }

  /** `[...new Set(xs)]` */
  function Dedupe(xs: seq<string>): (r: seq<string>)
    ensures forall x :: x in r <==> x in xs
  {
    if xs == [] then [] else
    var earlier := Dedupe(xs[..|xs| - 1]);
    assert xs == xs[..|xs| - 1] + [xs[|xs| - 1]];
    if xs[|xs| - 1] in earlier then earlier else earlier + [xs[|xs| - 1]]
  }

  /** The identities among the duplicates that nobody has processed yet, in chunks of 90. */
  method PendingDuplicates(db: Database, duplicates: seq<string>) returns (pending: seq<string>)
    modifies db
    ensures Grows(old(db.rows), db.rows)
    ensures forall k :: k in pending ==> k in duplicates
    ensures forall k :: k in duplicates && k in db.rows && k in old(db.rows) && !db.rows[k].processed ==> k in pending
  {
    var ids := Dedupe(duplicates);
    pending := [];
    var offset := 0;
    while offset < |ids|
      invariant offset <= |ids| && Grows(old(db.rows), db.rows)
      invariant forall k :: k in pending ==> k in ids
      invariant forall k :: k in ids[..offset] && k in db.rows && k in old(db.rows) && !db.rows[k].processed ==>
        k in pending
    {
      var end := if offset + 90 <= |ids| then offset + 90 else |ids|;
      var chunk := ids[offset..end];
      assert ids[..end] == ids[..offset] + chunk;
      ghost var before := db.rows;
      var some := db.SelectPending(chunk);
      assert forall k :: k in old(db.rows) ==> k in before && (before[k].processed ==> db.rows[k].processed);
      pending := pending + some;
      offset := end;
    }
    assert ids[..|ids|] == ids;
  }

  // ---------------------------------------------------------------- persistEvents

  datatype Ingested = Ingested(accepted: seq<string>, duplicates: seq<string>)

  /** A submitted identity is taken by another payload, in the request or in the database. */
  ghost predicate Conflict(events: seq<Submitted>, rows: Rows) {
    SelfConflict(events) ||
    exists j :: 0 <= j < |events| && events[j].id in rows && rows[events[j].id].hash != events[j].hash
  }

  ghost predicate AllEventsStored(rows: Rows, events: seq<Submitted>) {
    forall j :: 0 <= j < |events| ==> events[j].id in rows && rows[events[j].id].hash == events[j].hash
  }

  /**
  `persistEvents`: whatever other writers do in between, on success every submitted identity is accepted
  or reported as a duplicate, as often as it was submitted; nothing is accepted twice; every identity is
  stored with the submitted payload; and all accepted or still unprocessed identities are queued.  If the
  queue fails the events are stored all the same, so that submitting them again queues what is missing.
  */
  method PersistEvents(db: Database, queue: Queue, events: seq<Submitted>) returns (r: Result<Ingested, IngestError>,
      sent: seq<seq<string>>)
    modifies db, queue
    ensures Grows(old(db.rows), db.rows)
    ensures r.Ok? ==> queue.messages == old(queue.messages) + sent
    ensures exists n :: Queued(old(queue.messages), queue.messages, sent, n)
    ensures r == Err(Oversized) <==> exists i :: 0 <= i < |events| && events[i].oversized
    ensures r == Err(IdentityConflict) <==> r != Err(Oversized) && Conflict(events, db.rows)
    ensures r.Err? && r.error != QueueFailed ==> sent == []
    ensures r == Err(QueueFailed) <==> queue.failures > old(queue.failures)
    ensures r == Err(QueueFailed) ==> AllEventsStored(db.rows, events) && Bounded(sent)
    ensures r.Ok? ==> multiset(r.value.accepted) + multiset(r.value.duplicates) == multiset(Ids(events))
    ensures r.Ok? ==> NoRepeats(r.value.accepted) && Absent(r.value.accepted, old(db.rows))
    ensures r.Ok? ==> AllEventsStored(db.rows, events)
    ensures r.Ok? ==> Bounded(sent) && r.value.accepted <= Flatten(sent)
    ensures forall i :: 0 <= i < |sent| ==> 1 <= |sent[i]| <= 50
    ensures r.Ok? ==> forall x :: x in Flatten(sent) ==> x in Ids(events)
    ensures r.Ok? ==> forall j :: 0 <= j < |events| ==> db.rows[events[j].id].processed || events[j].id in Flatten(sent)
  {
    hide Normalized, Flatten, AllStored, Grows, Bounded, NoRepeats, Balance, AllEventsStored, Conflict;
    sent := [];
    assert Queued(old(queue.messages), queue.messages, [], 0);
    GrowsOn(db.rows, db.rows, db.rows);
    if exists i :: 0 <= i < |events| && events[i].oversized {
      return Err(Oversized), [];
    }
    var normal := Normalize(events);
    if normal.None? {
      SelfConflictIsConflict(events, db.rows);
      return Err(IdentityConflict), [];
    }
    var us := normal.value;
    NormalizedShape(events, us);
    var known := ExistingHashes(db, UniqueIds(us));
    ghost var looked := db.rows;
    var clash, candidates, known2 := SplitKnown(us, known);
    if clash {
      var i :| 0 <= i < |us| && us[i].id in known && known[us[i].id] != us[i].hash;
      ClashIsConflict(events, us, us[i], db.rows);
      return Err(IdentityConflict), [];
    }
    OccurrencesStay(us, candidates);
    var clash2, accepted, again, raced := InsertAll(db, candidates);
    GrowsOn(old(db.rows), looked, db.rows);
    if clash2 {
      var i :| 0 <= i < |candidates| && Clashes(db.rows, candidates[i]);
      ClashIsConflict(events, us, candidates[i], db.rows);
      return Err(IdentityConflict), [];
    }
    AbsentEarlier(accepted, old(db.rows), looked);
    KnownIsStored(us, candidates, known, looked, db.rows);
    RacedIsStored(candidates, raced, db.rows);
    ghost var inserted := db.rows;
    var clash3, lost := ResolveRaced(db, raced);
    GrowsOn(old(db.rows), inserted, db.rows);
    if clash3 {
      assert false;
    }
    StoredStays(inserted, db.rows, us);
    BalanceChain(known2, candidates, us, accepted, again, raced, lost);
    var duplicates := known2 + again + lost;
    ghost var resolved := db.rows;
    var pending := PendingDuplicates(db, duplicates);
    GrowsOn(old(db.rows), resolved, db.rows);
    StoredStays(resolved, db.rows, us);
    EventsAreStored(events, us, db.rows);
    var ok;
    ok, sent := EnqueueEventIds(queue, accepted + pending);
    if !ok {
      return Err(QueueFailed), sent;
    }
    MembersOf(accepted, duplicates, Ids(events));
    EventsAreStored(events, us, resolved);
    QueuedOrProcessed(events, accepted, duplicates, pending, resolved, db.rows);
    return Ok(Ingested(accepted, duplicates)), sent;
  }

  lemma {:induction false} SelfConflictIsConflict(events: seq<Submitted>, rows: Rows)
    requires SelfConflict(events)
    ensures Conflict(events, rows)
  {
  }

  lemma {:induction false} NormalizedShape(events: seq<Submitted>, us: seq<Unique>)
    requires Normalized(events, us)
    ensures Distinct(us) && (forall i :: 0 <= i < |us| ==> us[i].occurrences >= 1) &&
      Expand(us) == multiset(Ids(events))
  {
    hide Expand;
  }

  lemma {:induction false} OccurrencesStay(us: seq<Unique>, some: seq<Unique>)
    requires (forall i :: 0 <= i < |us| ==> us[i].occurrences >= 1) && forall u :: u in some ==> u in us
    ensures forall i :: 0 <= i < |some| ==> some[i].occurrences >= 1
  {
    forall i | 0 <= i < |some| ensures some[i].occurrences >= 1 {
      assert some[i] in us;
    }
  }

  lemma {:induction false} ClashIsConflict(events: seq<Submitted>, us: seq<Unique>, u: Unique, rows: Rows)
    requires Normalized(events, us) && u in us && Clashes(rows, u)
    ensures Conflict(events, rows)
  {
    hide Expand;
    assert Submits(events, u.id, u.hash);
  }

  lemma {:induction false} KnownIsStored(us: seq<Unique>, candidates: seq<Unique>, known: map<string, nat>,
      looked: Rows, rows: Rows)
    requires forall k :: k in known ==> k in looked && known[k] == looked[k].hash
    requires Grows(looked, rows) && AllStored(rows, candidates)
    requires forall i :: 0 <= i < |us| ==> us[i] in candidates || (us[i].id in known && known[us[i].id] == us[i].hash)
    ensures AllStored(rows, us)
  {
    forall i | 0 <= i < |us| ensures Stored(rows, us[i]) {
      if us[i] in candidates {
        var k :| 0 <= k < |candidates| && candidates[k] == us[i];
        assert Stored(rows, candidates[k]);
      }
    }
  }

  lemma {:induction false} RacedIsStored(candidates: seq<Unique>, raced: seq<Unique>, rows: Rows)
    requires AllStored(rows, candidates) && forall u :: u in raced ==> u in candidates
    ensures AllStored(rows, raced)
  {
    forall i | 0 <= i < |raced| ensures Stored(rows, raced[i]) {
      assert raced[i] in candidates;
      var k :| 0 <= k < |candidates| && candidates[k] == raced[i];
      assert Stored(rows, candidates[k]);
    }
  }

  lemma {:induction false} EventsAreStored(events: seq<Submitted>, us: seq<Unique>, rows: Rows)
    requires Normalized(events, us) && AllStored(rows, us)
    ensures AllEventsStored(rows, events) && !Conflict(events, rows)
  {
    hide Expand;
    forall j | 0 <= j < |events| ensures events[j].id in rows && rows[events[j].id].hash == events[j].hash {
      assert Lists(us, events[j].id, events[j].hash);
      var i :| 0 <= i < |us| && us[i].id == events[j].id && us[i].hash == events[j].hash;
      assert Stored(rows, us[i]);
    }
  }

  lemma {:induction false} MembersOf(accepted: seq<string>, duplicates: seq<string>, ids: seq<string>)
    requires multiset(accepted) + multiset(duplicates) == multiset(ids)
    ensures forall x :: x in ids <==> x in accepted || x in duplicates
  {
    forall x ensures x in ids <==> x in accepted || x in duplicates {
      assert x in multiset(ids) <==> x in multiset(accepted) + multiset(duplicates);
    }
  }

  lemma {:induction false} QueuedOrProcessed(
      events: seq<Submitted>, accepted: seq<string>, duplicates: seq<string>, pending: seq<string>, before: Rows,
        after: Rows)
    requires forall x :: x in Ids(events) <==> x in accepted || x in duplicates
    requires AllEventsStored(before, events) && AllEventsStored(after, events)
    requires forall x :: x in pending ==> x in duplicates
    requires forall k :: k in duplicates && k in after && k in before && !after[k].processed ==> k in pending
    ensures forall x :: x in accepted + pending ==> x in Ids(events)
    ensures forall j :: 0 <= j < |events| ==> events[j].id in after
    ensures forall j :: 0 <= j < |events| ==> after[events[j].id].processed || events[j].id in accepted + pending
  {
    forall j | 0 <= j < |events| ensures after[events[j].id].processed || events[j].id in accepted + pending {
      assert Ids(events)[j] == events[j].id;
      assert events[j].id in Ids(events);
    }
  }

  /** Flattening keeps every identity, message after message. */
  lemma {:induction false} FlattenParts(a: seq<seq<string>>, b: seq<seq<string>>)
    ensures Flatten(a + b) == Flatten(a) + Flatten(b)
  {
    if b == [] {
      assert a + b == a;
    } else {
      var n := |b| - 1;
      FlattenParts(a, b[..n]);
      FlattenSnoc(a + b[..n], b[n]);
      FlattenSnoc(b[..n], b[n]);
      hide Flatten;
      assert a + b == (a + b[..n]) + [b[n]] && b == b[..n] + [b[n]];
    }
  }

  lemma {:induction false} FlattenOne(m: seq<string>)
    ensures Flatten([m]) == m
  {
    FlattenSnoc([], m);
    assert [] + [m] == [m] && [] + m == m;
  }
}
