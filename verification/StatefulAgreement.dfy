/**
The streaming detectors are a cache of the evaluation over stored history: on every stream whose
times do not run backwards within one correlation key, both raise the same alert for every event,
with the same counts.

The two disagree on what they make of incomplete events, and the agreement says exactly how:
streaming behaves as the stored evaluation would if absent `bytes` were stored as zero and logins
without coordinates and session uses without a source were not stored at all.
*/
module StatefulAgreement {
  import opened Results
  import opened StatefulDetectors

  /** The form in which a streaming detector in effect remembers an event. */
  function Fill(e: Event): Event {
    if e.kind == SensitiveDataAccess && e.bytes.Missing? then e.(bytes := Number(0)) else e
  }

  /** Whether a streaming detector remembers the event at all, as far as later events can tell. */
  predicate Kept(e: Event) {
    (e.kind == AuthenticationSuccess ==> Located(e)) && (e.kind == EdgeSessionUse ==> e.source != "")
  }

  function Stored(es: seq<Event>): seq<Event> {
    if es == [] then [] else
    var last := es[|es| - 1];
    Stored(es[..|es| - 1]) + if Kept(last) then [Fill(last)] else []
  }

  lemma {:induction false} StoredMembers(es: seq<Event>)
    ensures forall x :: x in Stored(es) ==> exists y :: y in es && Kept(y) && x == Fill(y)
    ensures forall y :: y in es && Kept(y) ==> Fill(y) in Stored(es)
  {
    hide Kept, Fill;
    if es != [] {
      var n := |es| - 1;
      StoredMembers(es[..n]);
      assert es == es[..n] + [es[n]];
    }
  }

  lemma {:induction false} StoredSnoc(es: seq<Event>, e: Event)
    ensures Stored(es + [e]) == Stored(es) + if Kept(e) then [Fill(e)] else []
  {
    hide Kept, Fill;
    assert (es + [e])[..|es|] == es;
  }

  predicate DistinctIds(es: seq<Event>) { forall i, j :: 0 <= i < j < |es| ==> es[i].id != es[j].id }

  /** Times do not run backwards within a window key, and run forwards within a last-seen key. */
  predicate Follows(a: Event, b: Event) {
    && (BulkSample(a).Some? && BulkSample(b).Some? && a.actor == b.actor ==> a.time <= b.time)
    && (StuffingSample(a).Some? && StuffingSample(b).Some? && a.source == b.source ==> a.time <= b.time)
    && (IsLogin(a) && IsLogin(b) && a.actor == b.actor ==> a.time < b.time)
    && (IsSessionUse(a) && IsSessionUse(b) && a.session == b.session ==> a.time < b.time)
  }

  predicate Ordered(es: seq<Event>) { forall i, j :: 0 <= i < j < |es| ==> Follows(es[i], es[j]) }

  // ---------------------------------------------------------------- distinct ids

  lemma {:induction false} PutAppends(es: seq<Event>, e: Event)
    requires forall x :: x in es ==> x.id != e.id
    ensures Put(es, e) == es + [e]
  {
    if es != [] {
      PutAppends(es[1..], e);
    }
  }

  lemma {:induction false} DistinctPrefix(es: seq<Event>, n: nat)
    requires DistinctIds(es) && n < |es|
    ensures DistinctIds(es[..n]) && forall x :: x in es[..n] ==> x.id != es[n].id
  {
    forall x | x in es[..n] ensures x.id != es[n].id {
      var k :| 0 <= k < n && es[..n][k] == x;
      assert es[k] == x;
    }
  }

  lemma {:induction false} ByIdIsIdentity(es: seq<Event>, current: string)
    requires DistinctIds(es) && forall x :: x in es ==> x.id != current
    ensures ById(es, current) == es
  {
    hide Put;
    if es != [] {
      var n := |es| - 1;
      var prior := es[..n];
      assert es == prior + [es[n]];
      DistinctPrefix(es, n);
      ByIdIsIdentity(prior, current);
      PutAppends(prior, es[n]);
    }
  }

  lemma {:induction false} StoredDistinct(es: seq<Event>)
    requires DistinctIds(es)
    ensures DistinctIds(Stored(es))
  {
    if es != [] {
      var n := |es| - 1;
      DistinctPrefix(es, n);
      StoredDistinct(es[..n]);
      StoredMembers(es[..n]);
      forall x | x in Stored(es[..n]) ensures x.id != es[n].id {
        var y :| y in es[..n] && Kept(y) && x == Fill(y);
      }
    }
  }

  lemma {:induction false} HistoryOf(es: seq<Event>, e: Event)
    requires DistinctIds(es + [e])
    ensures ById(Stored(es), Fill(e).id) == Stored(es)
  {
    var all := es + [e];
    assert forall i, j :: 0 <= i < j < |es| ==> all[i] == es[i] && all[j] == es[j];
    StoredDistinct(es);
    StoredMembers(es);
    forall x | x in Stored(es) ensures x.id != e.id {
      var y :| y in es && Kept(y) && x == Fill(y);
      var k :| 0 <= k < |es| && es[k] == y;
      assert all[k] == y && all[|es|] == e;
    }
    ByIdIsIdentity(Stored(es), e.id);
  }

  // ---------------------------------------------------------------- window detectors

  lemma {:induction false} CollectAppend(a: seq<Event>, b: seq<Event>, pick: Event -> Option<Sample>)
    ensures Collect(a + b, pick) == Collect(a, pick) + Collect(b, pick)
  {
    if a == [] {
      assert a + b == b;
    } else {
      assert (a + b)[1..] == a[1..] + b && (a + b)[0] == a[0];
      CollectAppend(a[1..], b, pick);
      var head := if pick(a[0]).Some? then [pick(a[0]).value] else [];
      assert head + (Collect(a[1..], pick) + Collect(b, pick)) == head + Collect(a[1..], pick) + Collect(b, pick);
    }
  }

  lemma {:induction false} CollectSnoc(es: seq<Event>, e: Event, pick: Event -> Option<Sample>)
    ensures Collect(es + [e], pick) == Collect(es, pick) + if pick(e).Some? then [pick(e).value] else []
  {
    CollectAppend(es, [e], pick);
    assert Collect([e][1..], pick) == [];
  }

  lemma {:induction false} RecentAppend(a: seq<Sample>, b: seq<Sample>, cutoff: int)
    ensures Recent(a + b, cutoff) == Recent(a, cutoff) + Recent(b, cutoff)
  {
    if a == [] {
      assert a + b == b;
    } else {
      assert (a + b)[1..] == a[1..] + b;
      RecentAppend(a[1..], b, cutoff);
    }
  }

  function Within(s: Option<Sample>, cutoff: int): Option<Sample> {
    if s.Some? && s.value.time >= cutoff then s else None
  }

  /** Filtering what is stored by the window is filtering the stream and then the window. */
  lemma {:induction false} CollectStored(
    es: seq<Event>, stored: Event -> Option<Sample>, streamed: Event -> Option<Sample>, cutoff: int)
    requires forall e :: e in es && Kept(e) ==> stored(Fill(e)) == Within(streamed(e), cutoff)
    requires forall e :: e in es && !Kept(e) ==> streamed(e) == None
    ensures Collect(Stored(es), stored) == Recent(Collect(es, streamed), cutoff)
  {
    hide Kept, Fill, Stored;
    if es == [] {
      NothingStored();
    } else {
      var n := |es| - 1;
      var prior, e := es[..n], es[n];
      assert es == prior + [e] && e in es;
      CollectStored(prior, stored, streamed, cutoff);
      StoredSnoc(prior, e);
      CollectSnoc(prior, e, streamed);
      var xs := Collect(prior, streamed);
      if streamed(e).Some? {
        RecentSnoc(xs, streamed(e).value, cutoff);
      } else {
        assert xs + [] == xs;
      }
      if Kept(e) {
        CollectSnoc(Stored(prior), Fill(e), stored);
      } else {
        assert Stored(prior) + [] == Stored(prior);
      }
    }
  }

  lemma {:induction false} NothingStored() ensures Stored([]) == [] {}

  lemma {:induction false} RecentSnoc(xs: seq<Sample>, x: Sample, cutoff: int)
    ensures Recent(xs + [x], cutoff) == Recent(xs, cutoff) + if x.time >= cutoff then [x] else []
  {
    RecentAppend(xs, [x], cutoff);
    assert Recent([x][1..], cutoff) == [];
  }

  function BulkOf(actor: string): Event -> Option<Sample> {
    (e: Event) => if e.actor == actor then BulkSample(e) else None
  }

  function FailuresOf(source: string): Event -> Option<Sample> {
    (e: Event) => if e.source == source then StuffingSample(e) else None
  }

  /** The queue that a window detector must hold once its key has seen the samples `xs`. */
  function Window(xs: seq<Sample>, window: nat): seq<Sample> {
    if xs == [] then [] else DropOld(xs, xs[|xs| - 1].time - window)
  }

  /** Pushing a sample onto the window of `xs` and popping gives the window of the longer list. */
  lemma {:induction false} WindowGrows(xs: seq<Sample>, x: Sample, window: nat)
    requires InOrder(xs + [x])
    ensures DropOld(Window(xs, window) + [x], x.time - window) == Window(xs + [x], window)
  {
    if xs != [] {
      var last := (xs + [x])[|xs| - 1];
      assert last.time <= (xs + [x])[|xs|].time;
      DropTwice(xs, last.time - window, x.time - window, x);
    }
  }

  lemma {:induction false} CollectFrom(es: seq<Event>, pick: Event -> Option<Sample>, x: Sample)
    requires x in Collect(es, pick)
    ensures exists i :: 0 <= i < |es| && pick(es[i]) == Some(x)
  {
    if pick(es[0]) != Some(x) {
      CollectFrom(es[1..], pick, x);
      var i :| 0 <= i < |es[1..]| && pick(es[1..][i]) == Some(x);
      assert pick(es[i + 1]) == Some(x);
    }
  }

  /** The samples of one key come in time order when the events do. */
  lemma {:induction false} CollectInOrder(es: seq<Event>, pick: Event -> Option<Sample>)
    requires forall i, j :: 0 <= i < j < |es| && pick(es[i]).Some? && pick(es[j]).Some? ==>
      pick(es[i]).value.time <= pick(es[j]).value.time
    ensures InOrder(Collect(es, pick))
  {
    if es != [] {
      CollectInOrder(es[1..], pick);
      var rest := Collect(es[1..], pick);
      if pick(es[0]).Some? {
        forall j | 0 <= j < |rest| ensures pick(es[0]).value.time <= rest[j].time {
          CollectFrom(es[1..], pick, rest[j]);
          var i :| 0 <= i < |es[1..]| && pick(es[1..][i]) == Some(rest[j]);
          assert pick(es[i + 1]) == Some(rest[j]);
        }
      }
    }
  }

  lemma {:induction false} BulkInOrder(es: seq<Event>, actor: string)
    requires Ordered(es)
    ensures InOrder(Collect(es, BulkOf(actor)))
  {
    assert forall i, j :: 0 <= i < j < |es| ==> Follows(es[i], es[j]);
    CollectInOrder(es, BulkOf(actor));
  }

  lemma {:induction false} FailuresInOrder(es: seq<Event>, source: string)
    requires Ordered(es)
    ensures InOrder(Collect(es, FailuresOf(source)))
  {
    assert forall i, j :: 0 <= i < j < |es| ==> Follows(es[i], es[j]);
    CollectInOrder(es, FailuresOf(source));
  }

  lemma {:induction false} BulkQueue(c: Config, es: seq<Event>, actor: string)
    requires Ordered(es)
    ensures Queue(MemoryAfter(c, es).bulk, actor) == Window(Collect(es, BulkOf(actor)), c.bulkWindow)
  {
    hide DropOld, Follows, Window, Collect;
    if es == [] {
      EmptyWindow(BulkOf(actor), c.bulkWindow);
    } else {
      var prior, e := es[..|es| - 1], es[|es| - 1];
      assert es == prior + [e];
      BulkQueue(c, prior, actor);
      CollectSnoc(prior, e, BulkOf(actor));
      BulkInOrder(es, actor);
      if e.actor == actor && BulkSample(e).Some? {
        WindowGrows(Collect(prior, BulkOf(actor)), BulkSample(e).value, c.bulkWindow);
      } else {
        assert Collect(prior, BulkOf(actor)) + [] == Collect(prior, BulkOf(actor));
      }
    }
  }

  lemma {:induction false} FailureQueue(c: Config, es: seq<Event>, source: string)
    requires Ordered(es)
    ensures Queue(MemoryAfter(c, es).failures, source) == Window(Collect(es, FailuresOf(source)), c.stuffingWindow)
  {
    hide DropOld, Follows, Window, Collect;
    if es == [] {
      EmptyWindow(FailuresOf(source), c.stuffingWindow);
    } else {
      var prior, e := es[..|es| - 1], es[|es| - 1];
      assert es == prior + [e];
      FailureQueue(c, prior, source);
      CollectSnoc(prior, e, FailuresOf(source));
      FailuresInOrder(es, source);
      if e.source == source && StuffingSample(e).Some? {
        WindowGrows(Collect(prior, FailuresOf(source)), StuffingSample(e).value, c.stuffingWindow);
      } else {
        assert Collect(prior, FailuresOf(source)) + [] == Collect(prior, FailuresOf(source));
      }
    }
  }

  lemma {:induction false} EmptyWindow(pick: Event -> Option<Sample>, window: nat)
    ensures Window(Collect([], pick), window) == []
  {
  }

  /** The queue after an event is the window of the whole stream, cut at the event. */
  lemma {:induction false} WindowOfStream(xs: seq<Sample>, x: Sample, window: nat)
    requires InOrder(xs + [x])
    ensures Window(xs + [x], window) == Recent(xs + [x], x.time - window)
  {
    DropIsFilter(xs + [x], x.time - window);
  }

  lemma {:induction false} BulkPicks(es: seq<Event>, e: Event, cutoff: int)
    requires Ordered(es + [e]) && BulkSample(e).Some?
    ensures forall x :: x in es + [e] && Kept(x) ==>
      BulkInWindow(Fill(e), cutoff)(Fill(x)) == Within(BulkOf(e.actor)(x), cutoff)
  {
    var all := es + [e];
    forall x | x in all && Kept(x)
      ensures BulkInWindow(Fill(e), cutoff)(Fill(x)) == Within(BulkOf(e.actor)(x), cutoff)
    {
      var k :| 0 <= k < |all| && all[k] == x;
      assert k < |es| ==> Follows(all[k], all[|es|]);
    }
  }

  lemma {:induction false} FailurePicks(es: seq<Event>, e: Event, cutoff: int)
    requires Ordered(es + [e]) && StuffingSample(e).Some?
    ensures forall x :: x in es + [e] && Kept(x) ==>
      FailureInWindow(Fill(e), cutoff)(Fill(x)) == Within(FailuresOf(e.source)(x), cutoff)
  {
    var all := es + [e];
    forall x | x in all && Kept(x)
      ensures FailureInWindow(Fill(e), cutoff)(Fill(x)) == Within(FailuresOf(e.source)(x), cutoff)
    {
      var k :| 0 <= k < |all| && all[k] == x;
      assert k < |es| ==> Follows(all[k], all[|es|]);
    }
  }

  lemma {:induction false} BulkQueued(c: Config, es: seq<Event>, e: Event)
    requires Ordered(es + [e]) && BulkSample(e).Some?
    ensures Queue(MemoryAfter(c, es + [e]).bulk, e.actor) ==
      Recent(Collect(es + [e], BulkOf(e.actor)), e.time - c.bulkWindow)
  {
    hide DropOld, MemoryAfter, Window, Recent, Collect, Follows, Queue;
    var streamed := BulkOf(e.actor);
    BulkQueue(c, es + [e], e.actor);
    BulkInOrder(es + [e], e.actor);
    CollectSnoc(es, e, streamed);
    WindowOfStream(Collect(es, streamed), BulkSample(e).value, c.bulkWindow);
  }

  lemma {:induction false} BulkStored(es: seq<Event>, e: Event, cutoff: int)
    requires Ordered(es + [e]) && BulkSample(e).Some?
    ensures Collect(Stored(es) + [Fill(e)], BulkInWindow(Fill(e), cutoff)) ==
      Recent(Collect(es + [e], BulkOf(e.actor)), cutoff)
  {
    assert Kept(e);
    assert forall x :: x in es + [e] && !Kept(x) ==> BulkOf(e.actor)(x) == None;
    hide Recent, Collect, Stored, Within, Kept, Fill, BulkInWindow, BulkOf, Ordered;
    BulkPicks(es, e, cutoff);
    CollectStored(es + [e], BulkInWindow(Fill(e), cutoff), BulkOf(e.actor), cutoff);
    StoredSnoc(es, e);
  }

  lemma {:induction false} FailuresQueued(c: Config, es: seq<Event>, e: Event)
    requires Ordered(es + [e]) && StuffingSample(e).Some?
    ensures Queue(MemoryAfter(c, es + [e]).failures, e.source) ==
      Recent(Collect(es + [e], FailuresOf(e.source)), e.time - c.stuffingWindow)
  {
    hide DropOld, MemoryAfter, Window, Recent, Collect, Follows, Queue;
    var streamed := FailuresOf(e.source);
    FailureQueue(c, es + [e], e.source);
    FailuresInOrder(es + [e], e.source);
    CollectSnoc(es, e, streamed);
    WindowOfStream(Collect(es, streamed), StuffingSample(e).value, c.stuffingWindow);
  }

  lemma {:induction false} FailuresStored(es: seq<Event>, e: Event, cutoff: int)
    requires Ordered(es + [e]) && StuffingSample(e).Some?
    ensures Collect(Stored(es) + [Fill(e)], FailureInWindow(Fill(e), cutoff)) ==
      Recent(Collect(es + [e], FailuresOf(e.source)), cutoff)
  {
    assert Kept(e);
    assert forall x :: x in es + [e] && !Kept(x) ==> FailuresOf(e.source)(x) == None;
    hide Recent, Collect, Stored, Within, Kept, Fill, FailureInWindow, FailuresOf, Ordered;
    FailurePicks(es, e, cutoff);
    CollectStored(es + [e], FailureInWindow(Fill(e), cutoff), FailuresOf(e.source), cutoff);
    StoredSnoc(es, e);
  }

  lemma {:induction false} BulkAgrees(c: Config, es: seq<Event>, e: Event)
    requires Ordered(es + [e]) && DistinctIds(es + [e]) && BulkSample(e).Some?
    ensures BulkVerdict(c, e, Queue(MemoryAfter(c, es + [e]).bulk, e.actor)) == BatchAlert(c, Fill(e), Stored(es))
  {
    hide MemoryAfter, ById, Total, Collect, Stored, Recent;
    BulkQueued(c, es, e);
    BulkStored(es, e, e.time - c.bulkWindow);
    HistoryOf(es, e);
  }

  lemma {:induction false} StuffingAgrees(c: Config, es: seq<Event>, e: Event)
    requires Ordered(es + [e]) && DistinctIds(es + [e]) && StuffingSample(e).Some?
    ensures StuffingVerdict(c, e, Queue(MemoryAfter(c, es + [e]).failures, e.source)) ==
      BatchAlert(c, Fill(e), Stored(es))
  {
    hide MemoryAfter, ById, Accounts, Collect, Stored, Recent;
    FailuresQueued(c, es, e);
    FailuresStored(es, e, e.time - c.stuffingWindow);
    HistoryOf(es, e);
  }

  // ---------------------------------------------------------------- last-seen detectors

  lemma {:induction false} SelectMembers(es: seq<Event>, keep: Event -> bool, x: Event)
    ensures x in Select(es, keep) <==> x in es && keep(x)
  {
    if es != [] {
      SelectMembers(es[1..], keep, x);
      assert x in es <==> x == es[0] || x in es[1..];
    }
  }

  /** An event later than all others is the maximum. */
  lemma {:induction false} LatestIs(es: seq<Event>, m: Event)
    requires m in es && forall x :: x in es ==> x == m || x.time < m.time
    ensures Latest(es) == Some(m)
  {
    assert forall x :: x in es[1..] ==> x in es;
    if m in es[1..] {
      LatestIs(es[1..], m);
      assert es[0] in es;
    } else {
      assert es[0] == m;
      LatestMember(es[1..]);
    }
  }

  lemma {:induction false} LatestMember(es: seq<Event>)
    ensures Latest(es).Some? ==> Latest(es).value in es
  {
    if es != [] {
      LatestMember(es[1..]);
    }
  }

  /** `m` is the most recent event of the stream with the property. */
  ghost predicate MostRecent(es: seq<Event>, keep: Event -> bool, m: Option<Event>) {
    match m
    case None => forall i :: 0 <= i < |es| ==> !keep(es[i])
    case Some(x) => exists i :: 0 <= i < |es| && es[i] == x && keep(x) && forall j :: i < j < |es| ==> !keep(es[j])
  }

  function LoginOf(actor: string): Event -> bool { (e: Event) => IsLogin(e) && e.actor == actor }

  function UseOf(session: string): Event -> bool { (e: Event) => IsSessionUse(e) && e.session == Some(session) }

  lemma {:induction false} MostRecentGrows(es: seq<Event>, keep: Event -> bool, m: Option<Event>, e: Event)
    requires MostRecent(es, keep, m)
    ensures MostRecent(es + [e], keep, if keep(e) then Some(e) else m)
  {
    var all := es + [e];
    if keep(e) {
      assert all[|es|] == e;
    } else if m.Some? {
      var i :| 0 <= i < |es| && es[i] == m.value && keep(m.value) && forall j :: i < j < |es| ==> !keep(es[j]);
      assert all[i] == m.value;
    }
  }

  lemma {:induction false} LoginSeen(c: Config, es: seq<Event>, actor: string)
    ensures MostRecent(es, LoginOf(actor), Seen(MemoryAfter(c, es).logins, actor))
  {
    hide MostRecent, WindowNext;
    if es == [] {
      NothingRecent(LoginOf(actor));
    } else {
      var prior, e := es[..|es| - 1], es[|es| - 1];
      assert es == prior + [e];
      LoginSeen(c, prior, actor);
      MostRecentGrows(prior, LoginOf(actor), Seen(MemoryAfter(c, prior).logins, actor), e);
    }
  }

  lemma {:induction false} UseSeen(c: Config, es: seq<Event>, session: string)
    ensures MostRecent(es, UseOf(session), Seen(MemoryAfter(c, es).sessions, session))
  {
    hide MostRecent, WindowNext;
    if es == [] {
      NothingRecent(UseOf(session));
    } else {
      var prior, e := es[..|es| - 1], es[|es| - 1];
      assert es == prior + [e];
      UseSeen(c, prior, session);
      MostRecentGrows(prior, UseOf(session), Seen(MemoryAfter(c, prior).sessions, session), e);
    }
  }

  lemma {:induction false} NothingRecent(keep: Event -> bool) ensures MostRecent([], keep, None) {}

  /** The events that the stored evaluation may pick are events that the stream would remember. */
  ghost predicate Picks(es: seq<Event>, streamed: Event -> bool, stored: Event -> bool) {
    && (forall x :: x in es && Kept(x) && stored(Fill(x)) ==> streamed(x) && Fill(x) == x)
    && (forall i, j :: 0 <= i < j < |es| && streamed(es[i]) && streamed(es[j]) ==> es[i].time < es[j].time)
  }

  lemma {:induction false} MostRecentIsLatest(es: seq<Event>, keep: Event -> bool, m: Option<Event>, x: Event)
    requires MostRecent(es, keep, m) && x in es && keep(x)
    requires forall i, j :: 0 <= i < j < |es| && keep(es[i]) && keep(es[j]) ==> es[i].time < es[j].time
    ensures m.Some? && (x == m.value || x.time < m.value.time)
  {
    var k :| 0 <= k < |es| && es[k] == x;
    assert keep(es[k]);
    var i :| 0 <= i < |es| && es[i] == m.value && keep(m.value) && forall j :: i < j < |es| ==> !keep(es[j]);
    assert keep(es[i]);
  }

  lemma {:induction false} Candidate(es: seq<Event>, e: Event, streamed: Event -> bool, stored: Event -> bool,
      m: Option<Event>, x: Event)
    requires Picks(es, streamed, stored) && MostRecent(es, streamed, m) && !stored(Fill(e))
    requires x in Select(Stored(es) + [Fill(e)], stored)
    ensures x in es && Kept(x) && stored(Fill(x)) && m.Some? && (x == m.value || x.time < m.value.time)
  {
    hide Kept, Fill, Stored, Select, MostRecent;
    StoredMembers(es);
    SelectMembers(Stored(es) + [Fill(e)], stored, x);
    var y :| y in es && Kept(y) && x == Fill(y);
    MostRecentIsLatest(es, streamed, m, y);
  }

  /** The maximum of the stored candidates is the most recent event of the stream that qualifies. */
  lemma {:induction false} LatestStored(es: seq<Event>, e: Event, streamed: Event -> bool, stored: Event -> bool,
      m: Option<Event>)
    requires Picks(es, streamed, stored) && MostRecent(es, streamed, m) && !stored(Fill(e))
    requires m.Some? && !stored(m.value) ==> forall x :: x in es && Kept(x) ==> !stored(Fill(x))
    requires m.Some? && stored(m.value) ==> m.value in es && Kept(m.value) && Fill(m.value) == m.value
    ensures Latest(Select(Stored(es) + [Fill(e)], stored)) == if m.Some? && stored(m.value) then m else None
  {
    hide Kept, Fill, Stored, Select, Latest, MostRecent, Picks;
    var candidates := Select(Stored(es) + [Fill(e)], stored);
    forall x | x in candidates
      ensures m.Some? && stored(m.value) && (x == m.value || x.time < m.value.time)
    {
      Candidate(es, e, streamed, stored, m, x);
    }
    if m.Some? && stored(m.value) {
      StoredMembers(es);
      SelectMembers(Stored(es) + [Fill(e)], stored, m.value);
      LatestIs(candidates, m.value);
    } else {
      LatestMember(candidates);
    }
  }

  lemma {:induction false} TravelAgrees(c: Config, es: seq<Event>, e: Event)
    requires Ordered(es + [e]) && DistinctIds(es + [e]) && IsLogin(e)
    ensures TravelVerdict(c, e, Seen(MemoryAfter(c, es).logins, e.actor)) == BatchAlert(c, Fill(e), Stored(es))
  {
    hide MemoryAfter, ById, Latest, Put, Select, Stored;
    var all := es + [e];
    var m := Seen(MemoryAfter(c, es).logins, e.actor);
    LoginSeen(c, es, e.actor);
    HistoryOf(es, e);
    PriorFollows(es, e);
    LatestStored(es, e, LoginOf(e.actor), LoginBefore(e), m);
  }

  lemma {:induction false} ReplayAgrees(c: Config, es: seq<Event>, e: Event)
    requires Ordered(es + [e]) && DistinctIds(es + [e]) && IsSessionUse(e)
    ensures ReplayVerdict(c, e, Seen(MemoryAfter(c, es).sessions, e.session.value)) ==
      BatchAlert(c, Fill(e), Stored(es))
  {
    hide MemoryAfter, ById, Latest, Put, Select, Stored;
    var m := Seen(MemoryAfter(c, es).sessions, e.session.value);
    var stored := UseBefore(e, e.time - c.replayWindow);
    UseSeen(c, es, e.session.value);
    HistoryOf(es, e);
    PriorFollows(es, e);
    if m.Some? && !stored(m.value) {
      forall x | x in es && Kept(x) ensures !stored(Fill(x)) {
        var k :| 0 <= k < |es| && es[k] == x;
        var i :| 0 <= i < |es| && es[i] == m.value && UseOf(e.session.value)(m.value) &&
          forall j :: i < j < |es| ==> !UseOf(e.session.value)(es[j]);
        assert k < i ==> Follows(es[k], es[i]);
      }
    }
    LatestStored(es, e, UseOf(e.session.value), stored, m);
  }

  lemma {:induction false} PriorFollows(es: seq<Event>, e: Event)
    requires Ordered(es + [e]) && DistinctIds(es + [e])
    ensures Ordered(es) && forall x :: x in es ==> Follows(x, e) && x.id != e.id
  {
    var all := es + [e];
    forall i, j | 0 <= i < j < |es| ensures Follows(es[i], es[j]) {
      assert Follows(all[i], all[j]);
    }
    forall x | x in es ensures Follows(x, e) && x.id != e.id {
      var k :| 0 <= k < |es| && es[k] == x;
      assert Follows(all[k], all[|es|]);
    }
  }

  // ---------------------------------------------------------------- agreement

  /** Streaming and stored evaluation raise the same alert for the next event of any ordered stream. */
  lemma {:induction false} StreamingAgrees(c: Config, es: seq<Event>, e: Event)
    requires Ordered(es + [e]) && DistinctIds(es + [e])
    ensures StreamAlert(c, MemoryAfter(c, es), e) == BatchAlert(c, Fill(e), Stored(es))
  {
    hide BulkVerdict, StuffingVerdict, TravelVerdict, ReplayVerdict, ById, Latest, Select, Collect, Stored, Ordered,
      DistinctIds;
    assert (es + [e])[..|es|] == es;
    assert MemoryAfter(c, es + [e]) == Remember(c, MemoryAfter(c, es), e);
    if BulkSample(e).Some? {
      BulkAgrees(c, es, e);
    } else if IsLogin(e) {
      TravelAgrees(c, es, e);
    } else if StuffingSample(e).Some? {
      StuffingAgrees(c, es, e);
    } else if IsSessionUse(e) {
      ReplayAgrees(c, es, e);
    }
  }

  /** An event that carries what its correlation needs. */
  predicate Complete(e: Event) { Kept(e) && !(e.kind == SensitiveDataAccess && e.bytes.Missing?) }

  lemma {:induction false} CompleteIsStored(es: seq<Event>)
    requires forall i :: 0 <= i < |es| ==> Complete(es[i])
    ensures Stored(es) == es
  {
    hide Kept;
    if es != [] {
      var prior, e := es[..|es| - 1], es[|es| - 1];
      CompleteIsStored(prior);
      assert Fill(e) == e && es == prior + [e];
    }
  }

  /** On complete events the two evaluations agree as they stand. */
  lemma {:induction false} CompleteStreamsAgree(c: Config, es: seq<Event>, e: Event)
    requires Ordered(es + [e]) && DistinctIds(es + [e])
    requires Complete(e) && forall i :: 0 <= i < |es| ==> Complete(es[i])
    ensures StreamAlert(c, MemoryAfter(c, es), e) == BatchAlert(c, e, es)
  {
    hide StreamAlert, BatchAlert, MemoryAfter, Ordered, DistinctIds;
    CompleteIsStored(es);
    StreamingAgrees(c, es, e);
  }

  // ---------------------------------------------------------------- streams in any order

  /** The last event of the stream with the property. */
  function LastOf(es: seq<Event>, keep: Event -> bool): Option<Event> {
    if es == [] then None
    else if keep(es[|es| - 1]) then Some(es[|es| - 1])
    else LastOf(es[..|es| - 1], keep)
  }

  lemma {:induction false} LastIsMostRecent(es: seq<Event>, keep: Event -> bool, m: Option<Event>)
    requires MostRecent(es, keep, m)
    ensures LastOf(es, keep) == m
  {
    if es != [] && !keep(es[|es| - 1]) {
      var prior := es[..|es| - 1];
      if m.Some? {
        var i :| 0 <= i < |es| && es[i] == m.value && keep(m.value) && forall j :: i < j < |es| ==> !keep(es[j]);
        assert prior[i] == m.value;
      }
      LastIsMostRecent(prior, keep, m);
    }
  }

  /**
  On every stream, ordered or not, streaming judges a login against the last located login of its actor in
  arrival order, and raises nothing if that one is not earlier; likewise for the uses of a session.
  */
  lemma {:induction false} StreamingLooksAtTheLast(c: Config, es: seq<Event>, e: Event)
    ensures IsLogin(e) ==>
      var m := LastOf(es, LoginOf(e.actor));
      && (m.Some? ==> Located(m.value) && m.value.actor == e.actor)
      && StreamAlert(c, MemoryAfter(c, es), e) == TravelVerdict(c, e, m)
      && (m.Some? && e.time <= m.value.time ==> StreamAlert(c, MemoryAfter(c, es), e).None?)
    ensures IsSessionUse(e) ==>
      var m := LastOf(es, UseOf(e.session.value));
      && StreamAlert(c, MemoryAfter(c, es), e) == ReplayVerdict(c, e, m)
      && (m.Some? && e.time <= m.value.time ==> StreamAlert(c, MemoryAfter(c, es), e).None?)
  {
    hide MemoryAfter, LastOf, BulkVerdict, StuffingVerdict;
    if IsLogin(e) {
      LoginSeen(c, es, e.actor);
      LastIsMostRecent(es, LoginOf(e.actor), Seen(MemoryAfter(c, es).logins, e.actor));
    } else if IsSessionUse(e) {
      UseSeen(c, es, e.session.value);
      LastIsMostRecent(es, UseOf(e.session.value), Seen(MemoryAfter(c, es).sessions, e.session.value));
    }
  }

  // ---------------------------------------------------------------- why the conditions are needed

  const ALARMIST: Config := Config(1, 1, 10, 1.0, 1, 1, 10, 10, (s: string) => s,
    (a: real, b: real, x: real, y: real) => 10_000.0)

  function Login(id: string, time: int, at: Option<real>): Event {
    Event(id, AuthenticationSuccess, time, "ann", "", Missing, at, at, None)
  }

  /** A stream of one access without `bytes`: counted while streaming, ignored when stored. */
  lemma {:induction false} MissingBytesDisagree()
    ensures var e := Event("a", SensitiveDataAccess, 0, "ann", "", Missing, None, None, None);
      StreamAlert(ALARMIST, MemoryAfter(ALARMIST, []), e).Some? && BatchAlert(ALARMIST, e, []).None?
  {
  }

  lemma {:induction false} TwoRemembered(a: Event, b: Event)
    requires a.kind == b.kind == AuthenticationSuccess && a.actor == b.actor && IsLogin(a)
    ensures MemoryAfter(ALARMIST, [a, b]).logins == map[a.actor := if IsLogin(b) then b else a]
  {
    assert [a, b][..1] == [a] && [a][..0] == [];
    assert MemoryAfter(ALARMIST, [a]) == Remember(ALARMIST, FRESH, a);
  }

  lemma {:induction false} TwoSelected(a: Event, b: Event, e: Event)
    requires a.kind == b.kind == e.kind == AuthenticationSuccess && a.actor == b.actor == e.actor
    requires a.id != b.id && e.id != a.id && e.id != b.id && a.time < e.time
    ensures Select(ById([a, b], e.id) + [e], LoginBefore(e)) == if b.time < e.time then [a, b] else [a]
  {
    ByIdIsIdentity([a, b], e.id);
    hide ById, Put;
    assert [a, b] + [e] == [a, b, e];
    ThreeSelected(a, b, e, LoginBefore(e));
  }

  lemma {:induction false} ThreeSelected(a: Event, b: Event, e: Event, keep: Event -> bool)
    requires keep(a) && !keep(e)
    ensures Select([a, b, e], keep) == if keep(b) then [a, b] else [a]
  {
    assert [a, b, e][1..] == [b, e] && [b, e][1..] == [e] && [e][1..] == [];
    assert Select([e], keep) == [];
    assert Select([b, e], keep) == if keep(b) then [b] else [];
  }

  /** A login without coordinates hides the earlier one from the stored evaluation only. */
  lemma {:induction false} UnlocatedLoginDisagrees()
    ensures var a, b, e := Login("a", 0, Some(1.0)), Login("b", 1, None), Login("c", 2, Some(2.0));
      StreamAlert(ALARMIST, MemoryAfter(ALARMIST, [a, b]), e).Some? && BatchAlert(ALARMIST, e, [a, b]).None?
  {
    var a, b, e := Login("a", 0, Some(1.0)), Login("b", 1, None), Login("c", 2, Some(2.0));
    hide MemoryAfter, ById, Select, Latest, Remember, BulkVerdict, StuffingVerdict, ReplayVerdict;
    TwoRemembered(a, b);
    TwoSelected(a, b, e);
    LatestIs([a, b], b);
  }

  /** Two logins at the same time: the stored evaluation looks past the tie, streaming does not. */
  lemma {:induction false} TiedLoginsDisagree()
    ensures var a, b, e := Login("a", 0, Some(1.0)), Login("b", 1, Some(3.0)), Login("c", 1, Some(2.0));
      StreamAlert(ALARMIST, MemoryAfter(ALARMIST, [a, b]), e).None? && BatchAlert(ALARMIST, e, [a, b]).Some?
  {
    var a, b, e := Login("a", 0, Some(1.0)), Login("b", 1, Some(3.0)), Login("c", 1, Some(2.0));
    hide MemoryAfter, ById, Select, Latest, Remember, BulkVerdict, StuffingVerdict, ReplayVerdict;
    TwoRemembered(a, b);
    TwoSelected(a, b, e);
    LatestIs([a], a);
  }

  function Use(id: string, time: int, source: string): Event {
    Event(id, EdgeSessionUse, time, "ann", source, Missing, None, None, Some("session-0123"))
  }

  /** A session use without a source hides the earlier one from the stored evaluation only. */
  lemma {:induction false} SourcelessUseDisagrees()
    ensures var a, b, e := Use("a", 0, "x"), Use("b", 1, ""), Use("c", 2, "y");
      StreamAlert(ALARMIST, MemoryAfter(ALARMIST, [a, b]), e).Some? && BatchAlert(ALARMIST, e, [a, b]).None?
  {
    var a, b, e := Use("a", 0, "x"), Use("b", 1, ""), Use("c", 2, "y");
    StreamingLooksAtTheLast(ALARMIST, [a, b], e);
    hide MemoryAfter, ById, Select, Latest, Remember, StreamAlert;
    assert [a, b][..1] == [a];
    assert LastOf([a, b], UseOf("session-0123")) == LastOf([a], UseOf("session-0123")) == Some(a);
    ByIdIsIdentity([a, b], e.id);
    assert [a, b] + [e] == [a, b, e];
    ThreeSelected(a, b, e, UseBefore(e, e.time - ALARMIST.replayWindow));
    LatestIs([a, b], b);
  }
}
