/**
The stateful correlations, twice: as streaming detectors that keep queues and last-seen records,
and as one evaluation over the full stored history.

Times are microseconds.  `fold` (case folding) and `distance` (great-circle kilometres) are
parameters.  A missing source address is the empty text.
*/
module StatefulDetectors {
  import opened Results

  datatype Kind = SensitiveDataAccess | AuthenticationSuccess | EdgeAuthFailure | EdgeSessionUse | OtherKind

  /** The `bytes` attribute; a finite number is truncated to an integer. */
  datatype Quantity = Missing | NotNumeric | Number(n: int)

  datatype Event = Event(
    id: string, kind: Kind, time: int, actor: string, source: string,
    bytes: Quantity, latitude: Option<real>, longitude: Option<real>, session: Option<string>)

  datatype Config = Config(
    bulkEvents: int, bulkBytes: int, bulkWindow: nat,
    maximumSpeed: real,
    stuffingFailures: int, stuffingAccounts: int, stuffingWindow: nat,
    replayWindow: nat,
    fold: string -> string,
    distance: (real, real, real, real) -> real)

  datatype Detail =
    | Bulk(count: nat, total: int)
    | Travel(speed: real, distance: real, hours: real)
    | Stuffing(failures: nat, accounts: nat)
    | Replay(previousSource: string)

  datatype Alert = Alert(scope: string, eventId: string, actor: string, time: int, detail: Detail)

  predicate Located(e: Event) { e.latitude.Some? && e.longitude.Some? }

  predicate HasSession(e: Event) { e.session.Some? && |e.session.value| >= 12 }

  // ---------------------------------------------------------------- windows

  /** One remembered event of a window detector. */
  datatype Sample = Sample(time: int, amount: int, actor: string, id: string)

  function Total(q: seq<Sample>): int { if q == [] then 0 else q[0].amount + Total(q[1..]) }

  function Accounts(c: Config, q: seq<Sample>): nat { |set x | x in q :: c.fold(x.actor)| }

  /** The total of a queue is the sum of its amounts, however the queue is cut. */
  lemma {:induction false} TotalOfParts(a: seq<Sample>, b: seq<Sample>)
    ensures Total(a + b) == Total(a) + Total(b)
    ensures |a| == 1 ==> Total(a) == a[0].amount
  {
    if a == [] {
      assert a + b == b;
    } else {
      assert (a + b)[1..] == a[1..] + b;
      TotalOfParts(a[1..], b);
    }
  }

  /** Distinct accounts are counted up to case folding. */
  lemma {:induction false} AccountsGrow(c: Config, q: seq<Sample>, x: Sample)
    ensures Accounts(c, []) == 0
    ensures Accounts(c, q + [x]) ==
      Accounts(c, q) + if exists y :: y in q && c.fold(y.actor) == c.fold(x.actor) then 0 else 1
  {
    var before, after := (set y | y in q :: c.fold(y.actor)), (set y | y in q + [x] :: c.fold(y.actor));
    assert after == before + {c.fold(x.actor)};
    var none: seq<Sample> := [];
    assert (set y | y in none :: c.fold(y.actor)) == {};
  }

  /** What is left after removing from the front while the front is older than the cutoff. */
  function DropOld(q: seq<Sample>, cutoff: int): seq<Sample> {
    if q != [] && q[0].time < cutoff then DropOld(q[1..], cutoff) else q
  }

  /** The samples of a window: those not older than the cutoff. */
  function Recent(q: seq<Sample>, cutoff: int): seq<Sample> {
    if q == [] then [] else (if q[0].time >= cutoff then [q[0]] else []) + Recent(q[1..], cutoff)
  }

  predicate InOrder(q: seq<Sample>) { forall i, j :: 0 <= i < j < |q| ==> q[i].time <= q[j].time }

  method PopOld(queue: seq<Sample>, cutoff: int) returns (r: seq<Sample>)
    ensures r == DropOld(queue, cutoff)
  {
    r := queue;
    while r != [] && r[0].time < cutoff
      invariant DropOld(queue, cutoff) == DropOld(r, cutoff)
    {
      r := r[1..];
    }
  }

  /** On a queue in time order, removing from the front is the same as filtering. */
  lemma {:induction false} NewestStays(q: seq<Sample>, x: Sample, cutoff: int)
    requires x.time >= cutoff
    ensures var r := DropOld(q + [x], cutoff); r != [] && r[|r| - 1] == x && r[0].time >= cutoff
  {
    var all := q + [x];
    if q == [] {
      assert all == [x];
    } else if all[0].time < cutoff {
      assert all[1..] == q[1..] + [x];
      NewestStays(q[1..], x, cutoff);
    }
  }

  lemma {:induction false} DropIsFilter(q: seq<Sample>, cutoff: int)
    requires InOrder(q)
    ensures DropOld(q, cutoff) == Recent(q, cutoff)
  {
    if q != [] {
      if q[0].time < cutoff {
        DropIsFilter(q[1..], cutoff);
      } else {
        AllRecent(q, cutoff);
      }
    }
  }

  lemma {:induction false} AllRecent(q: seq<Sample>, cutoff: int)
    requires forall i :: 0 <= i < |q| ==> q[i].time >= cutoff
    ensures Recent(q, cutoff) == q
  {
    if q != [] {
      AllRecent(q[1..], cutoff);
    }
  }

  /** What an earlier cutoff removed, a later one would have removed anyway. */
  lemma {:induction false} DropTwice(q: seq<Sample>, early: int, late: int, x: Sample)
    requires early <= late <= x.time
    ensures DropOld(DropOld(q, early) + [x], late) == DropOld(q + [x], late)
  {
    if q != [] && q[0].time < early {
      DropTwice(q[1..], early, late, x);
      assert (q + [x])[1..] == q[1..] + [x];
    }
  }

  // ---------------------------------------------------------------- streaming detectors

  function Queue(history: map<string, seq<Sample>>, key: string): seq<Sample> {
    if key in history then history[key] else []
  }

  function BulkSample(e: Event): Option<Sample> {
    if e.kind != SensitiveDataAccess || e.bytes.NotNumeric? then None
    else Some(Sample(e.time, if e.bytes.Missing? then 0 else e.bytes.n, e.actor, e.id))
  }

  function StuffingSample(e: Event): Option<Sample> {
    if e.kind != EdgeAuthFailure || e.source == "" then None else Some(Sample(e.time, 0, e.actor, e.id))
  }

  /** The state of a window detector after one event. */
  function WindowNext(
    history: map<string, seq<Sample>>, sample: Option<Sample>, key: string, window: nat): map<string, seq<Sample>>
  {
    if sample.None? then history
    else history[key := DropOld(Queue(history, key) + [sample.value], sample.value.time - window)]
  }

  function BulkVerdict(c: Config, e: Event, q: seq<Sample>): Option<Alert> {
    if |q| < c.bulkEvents && Total(q) < c.bulkBytes then None
    else Some(Alert("bulk-sensitive-access:" + e.actor, e.id, e.actor, e.time, Bulk(|q|, Total(q))))
  }

  function StuffingVerdict(c: Config, e: Event, q: seq<Sample>): Option<Alert> {
    if |q| < c.stuffingFailures || Accounts(c, q) < c.stuffingAccounts then None
    else Some(Alert("credential-stuffing:" + e.source, e.id, e.actor, e.time, Stuffing(|q|, Accounts(c, q))))
  }

  function TravelVerdict(c: Config, e: Event, previous: Option<Event>): Option<Alert>
    requires Located(e) && (previous.Some? ==> Located(previous.value))
  {
    if previous.None? || e.time <= previous.value.time then None else
    var p := previous.value;
    var hours := (e.time - p.time) as real / 3_600_000_000.0;
    var distance := c.distance(p.latitude.value, p.longitude.value, e.latitude.value, e.longitude.value);
    var speed := distance / hours;
    if speed <= c.maximumSpeed then None
    else Some(Alert("impossible-travel:" + e.actor, e.id, e.actor, e.time, Travel(speed, distance, hours)))
  }

  function ReplayVerdict(c: Config, e: Event, previous: Option<Event>): Option<Alert>
    requires HasSession(e)
  {
    if previous.None? || e.time <= previous.value.time then None
    else if e.time - previous.value.time > c.replayWindow || e.source == previous.value.source then None
    else Some(Alert("session-replay:" + e.session.value, e.id, e.actor, e.time, Replay(previous.value.source)))
  }

  predicate IsLogin(e: Event) { e.kind == AuthenticationSuccess && Located(e) }

  predicate IsSessionUse(e: Event) { e.kind == EdgeSessionUse && e.source != "" && HasSession(e) }

  function Seen(previous: map<string, Event>, key: string): Option<Event> {
    if key in previous then Some(previous[key]) else None
  }

  class BulkAccessDetector {
    const c: Config
    var history: map<string, seq<Sample>>

    constructor (c: Config)
      ensures this.c == c && history == map[]
    {
      this.c := c;
      history := map[];
    }

    method Evaluate(e: Event) returns (r: Option<Alert>)
      modifies this
      ensures history == WindowNext(old(history), BulkSample(e), e.actor, c.bulkWindow)
      ensures r == if BulkSample(e).None? then None else BulkVerdict(c, e, Queue(history, e.actor))
      ensures r.Some? <==>
        && e.kind == SensitiveDataAccess && !e.bytes.NotNumeric? && e.actor in history
        && (|history[e.actor]| >= c.bulkEvents || Total(history[e.actor]) >= c.bulkBytes)
      ensures e.kind == SensitiveDataAccess && !e.bytes.NotNumeric? ==>
        && e.actor in history && history[e.actor] != []
        && (var q := history[e.actor];
            q[|q| - 1] == Sample(e.time, if e.bytes.Number? then e.bytes.n else 0, e.actor, e.id))
      ensures r.Some? ==>
        && r.value.eventId == e.id && r.value.actor == e.actor && r.value.time == e.time
        && r.value.detail == Bulk(|history[e.actor]|, Total(history[e.actor]))
    {
      var sample := BulkSample(e);
      if sample.None? {
        return None;
      }
      var queue := PopOld(Queue(history, e.actor) + [sample.value], e.time - c.bulkWindow);
      NewestStays(Queue(history, e.actor), sample.value, e.time - c.bulkWindow);
      history := history[e.actor := queue];
      return BulkVerdict(c, e, queue);
    }
  }

  class CredentialStuffingDetector {
    const c: Config
    var history: map<string, seq<Sample>>

    constructor (c: Config)
      ensures this.c == c && history == map[]
    {
      this.c := c;
      history := map[];
    }

    method Evaluate(e: Event) returns (r: Option<Alert>)
      modifies this
      ensures history == WindowNext(old(history), StuffingSample(e), e.source, c.stuffingWindow)
      ensures r == if StuffingSample(e).None? then None else StuffingVerdict(c, e, Queue(history, e.source))
      ensures r.Some? <==>
        && e.kind == EdgeAuthFailure && e.source != "" && e.source in history
        && |history[e.source]| >= c.stuffingFailures && Accounts(c, history[e.source]) >= c.stuffingAccounts
      ensures e.kind == EdgeAuthFailure && e.source != "" ==>
        && e.source in history && history[e.source] != []
        && (var q := history[e.source]; q[|q| - 1] == Sample(e.time, 0, e.actor, e.id))
      ensures r.Some? ==>
        && r.value.eventId == e.id && r.value.actor == e.actor && r.value.time == e.time
        && r.value.detail == Stuffing(|history[e.source]|, Accounts(c, history[e.source]))
    {
      var sample := StuffingSample(e);
      if sample.None? {
        return None;
      }
      var queue := PopOld(Queue(history, e.source) + [sample.value], e.time - c.stuffingWindow);
      NewestStays(Queue(history, e.source), sample.value, e.time - c.stuffingWindow);
      history := history[e.source := queue];
      return StuffingVerdict(c, e, queue);
    }
  }

  /** How far apart two located events are. */
  function Kilometres(c: Config, from: Event, to: Event): real
    requires Located(from) && Located(to)
  {
    c.distance(from.latitude.value, from.longitude.value, to.latitude.value, to.longitude.value)
  }

  class ImpossibleTravelDetector {
    const c: Config
    var previous: map<string, Event>

    constructor (c: Config)
      ensures this.c == c && previous == map[]
    {
      this.c := c;
      previous := map[];
    }

    method Evaluate(e: Event) returns (r: Option<Alert>)
      requires forall k :: k in previous ==> Located(previous[k])
      modifies this
      ensures previous == if IsLogin(e) then old(previous)[e.actor := e] else old(previous)
      ensures r == if IsLogin(e) then TravelVerdict(c, e, Seen(old(previous), e.actor)) else None
      ensures r.Some? <==>
        && e.kind == AuthenticationSuccess && e.latitude.Some? && e.longitude.Some? && e.actor in old(previous)
        && (var p := old(previous)[e.actor];
            && p.time < e.time
            && Kilometres(c, p, e) / ((e.time - p.time) as real / 3_600_000_000.0) > c.maximumSpeed)
      ensures r.Some? ==>
        var p := old(previous)[e.actor];
        var hours := (e.time - p.time) as real / 3_600_000_000.0;
        && r.value.eventId == e.id && r.value.actor == e.actor && r.value.time == e.time
        && r.value.detail == Travel(Kilometres(c, p, e) / hours, Kilometres(c, p, e), hours)
    {
      if !IsLogin(e) {
        return None;
      }
      var last := Seen(previous, e.actor);
      previous := previous[e.actor := e];
      return TravelVerdict(c, e, last);
    }
  }

  class SessionReplayDetector {
    const c: Config
    var previous: map<string, Event>

    constructor (c: Config)
      ensures this.c == c && previous == map[]
    {
      this.c := c;
      previous := map[];
    }

    method Evaluate(e: Event) returns (r: Option<Alert>)
      modifies this
      ensures previous == if IsSessionUse(e) then old(previous)[e.session.value := e] else old(previous)
      ensures r == if IsSessionUse(e) then ReplayVerdict(c, e, Seen(old(previous), e.session.value)) else None
      ensures r.Some? <==>
        && e.kind == EdgeSessionUse && e.source != "" && e.session.Some? && |e.session.value| >= 12
        && e.session.value in old(previous) && old(previous)[e.session.value].source != e.source
        && 0 < e.time - old(previous)[e.session.value].time <= c.replayWindow
      ensures r.Some? ==>
        && r.value.eventId == e.id && r.value.actor == e.actor && r.value.time == e.time
        && r.value.detail == Replay(old(previous)[e.session.value].source)
    {
      if !IsSessionUse(e) {
        return None;
      }
      var last := Seen(previous, e.session.value);
      previous := previous[e.session.value := e];
      return ReplayVerdict(c, e, last);
    }
  }

  // ---------------------------------------------------------------- the pipeline over a stream

  /** The state of the four detectors. */
  datatype Memory = Memory(
    bulk: map<string, seq<Sample>>, logins: map<string, Event>,
    failures: map<string, seq<Sample>>, sessions: map<string, Event>)

  const FRESH: Memory := Memory(map[], map[], map[], map[])

  function Remember(c: Config, m: Memory, e: Event): Memory {
    Memory(
      WindowNext(m.bulk, BulkSample(e), e.actor, c.bulkWindow),
      if IsLogin(e) then m.logins[e.actor := e] else m.logins,
      WindowNext(m.failures, StuffingSample(e), e.source, c.stuffingWindow),
      if IsSessionUse(e) then m.sessions[e.session.value := e] else m.sessions)
  }

  function MemoryAfter(c: Config, es: seq<Event>): (m: Memory)
    ensures forall k :: k in m.logins ==> Located(m.logins[k])
  {
    if es == [] then FRESH else Remember(c, MemoryAfter(c, es[..|es| - 1]), es[|es| - 1])
  }

  /** The alert of the detector that handles the event, if any; the kinds exclude each other. */
  function StreamAlert(c: Config, m: Memory, e: Event): Option<Alert>
    requires forall k :: k in m.logins ==> Located(m.logins[k])
  {
    if BulkSample(e).Some? then BulkVerdict(c, e, Queue(Remember(c, m, e).bulk, e.actor))
    else if IsLogin(e) then TravelVerdict(c, e, Seen(m.logins, e.actor))
    else if StuffingSample(e).Some? then StuffingVerdict(c, e, Queue(Remember(c, m, e).failures, e.source))
    else if IsSessionUse(e) then ReplayVerdict(c, e, Seen(m.sessions, e.session.value))
    else None
  }

  /** The stateful part of `DetectionPipeline`. */
  class Pipeline {
    const c: Config
    const bulk: BulkAccessDetector
    const travel: ImpossibleTravelDetector
    const stuffing: CredentialStuffingDetector
    const replay: SessionReplayDetector

    ghost function State(): Memory
      reads bulk, travel, stuffing, replay
    {
      Memory(bulk.history, travel.previous, stuffing.history, replay.previous)
    }

    ghost predicate Valid()
      reads bulk, travel, stuffing, replay
    {
      && bulk.c == travel.c == stuffing.c == replay.c == c
      && (forall k :: k in travel.previous ==> Located(travel.previous[k]))
    }

    constructor (c: Config)
      ensures Valid() && State() == FRESH && this.c == c
      ensures fresh(bulk) && fresh(travel) && fresh(stuffing) && fresh(replay)
    {
      this.c := c;
      bulk := new BulkAccessDetector(c);
      travel := new ImpossibleTravelDetector(c);
      stuffing := new CredentialStuffingDetector(c);
      replay := new SessionReplayDetector(c);
    }

    method Evaluate(e: Event) returns (r: Option<Alert>)
      requires Valid()
      modifies bulk, travel, stuffing, replay
      ensures Valid()
      ensures State() == Remember(c, old(State()), e)
      ensures r == StreamAlert(c, old(State()), e)
    {
      hide BulkVerdict, StuffingVerdict, TravelVerdict, ReplayVerdict, DropOld;
      var a := bulk.Evaluate(e);
      var b := travel.Evaluate(e);
      var d := stuffing.Evaluate(e);
      var f := replay.Evaluate(e);
      return if a.Some? then a else if b.Some? then b else if d.Some? then d else f;
    }
  }

  /** Running the detectors over a stream, one event at a time. */
  method RunStream(c: Config, es: seq<Event>) returns (alerts: seq<Option<Alert>>)
    ensures |alerts| == |es|
    ensures forall i :: 0 <= i < |es| ==> alerts[i] == StreamAlert(c, MemoryAfter(c, es[..i]), es[i])
  {
    hide StreamAlert, Remember;
    var pipeline := new Pipeline(c);
    alerts := [];
    for i := 0 to |es|
      invariant |alerts| == i && pipeline.Valid()
      invariant MemoryAfter(c, es[..i]) == pipeline.State()
      invariant forall j :: 0 <= j < i ==> alerts[j] == StreamAlert(c, MemoryAfter(c, es[..j]), es[j])
    {
      assert es[..i + 1][..i] == es[..i];
      var alert := pipeline.Evaluate(es[i]);
      alerts := alerts + [alert];
    }
  }

  // ---------------------------------------------------------------- evaluation over stored history

  /** A dictionary keyed by event id: a repeated id keeps its place and takes the later event. */
  function Put(es: seq<Event>, e: Event): seq<Event> {
    if es == [] then [e]
    else if es[0].id == e.id then [e] + es[1..]
    else [es[0]] + Put(es[1..], e)
  }

  function ById(prior: seq<Event>, current: string): seq<Event> {
    if prior == [] then [] else
    var earlier := ById(prior[..|prior| - 1], current);
    if prior[|prior| - 1].id == current then earlier else Put(earlier, prior[|prior| - 1])
  }

  function Collect(es: seq<Event>, pick: Event -> Option<Sample>): seq<Sample> {
    if es == [] then [] else
    var s := pick(es[0]);
    (if s.Some? then [s.value] else []) + Collect(es[1..], pick)
  }

  predicate TextLess(a: string, b: string) {
    b != "" && (a == "" || a[0] < b[0] || (a[0] == b[0] && TextLess(a[1..], b[1..])))
  }

  /** The order of `(timestamp, event_id)`. */
  predicate Earlier(a: Event, b: Event) { a.time < b.time || (a.time == b.time && TextLess(a.id, b.id)) }

  function Select(es: seq<Event>, keep: Event -> bool): seq<Event> {
    if es == [] then [] else (if keep(es[0]) then [es[0]] else []) + Select(es[1..], keep)
  }

  /** `max(..., key=...)`: the first of the greatest. */
  function Latest(es: seq<Event>): Option<Event> {
    if es == [] then None else
    var rest := Latest(es[1..]);
    if rest.Some? && Earlier(es[0], rest.value) then rest else Some(es[0])
  }

  function BulkInWindow(e: Event, cutoff: int): Event -> Option<Sample> {
    (x: Event) =>
      if x.kind == e.kind && x.actor == e.actor && cutoff <= x.time <= e.time && x.bytes.Number? then
        Some(Sample(x.time, x.bytes.n, x.actor, x.id))
      else None
  }

  function FailureInWindow(e: Event, cutoff: int): Event -> Option<Sample> {
    (x: Event) =>
      if x.kind == e.kind && x.source == e.source && cutoff <= x.time <= e.time then
        Some(Sample(x.time, 0, x.actor, x.id))
      else None
  }

  function LoginBefore(e: Event): Event -> bool {
    (x: Event) => x.id != e.id && x.kind == e.kind && x.actor == e.actor && x.time < e.time
  }

  function UseBefore(e: Event, cutoff: int): Event -> bool {
    (x: Event) => x.id != e.id && x.kind == e.kind && x.session == e.session && cutoff <= x.time < e.time
  }

  /** `evaluate_stateful_event`. */
  function BatchAlert(c: Config, e: Event, prior: seq<Event>): Option<Alert> {
    var history := ById(prior, e.id) + [e];
    match e.kind
    case SensitiveDataAccess =>
      if !e.bytes.Number? then None
      else BulkVerdict(c, e, Collect(history, BulkInWindow(e, e.time - c.bulkWindow)))
    case AuthenticationSuccess =>
      if !Located(e) then None else
      var previous := Latest(Select(history, LoginBefore(e)));
      if previous.None? || !Located(previous.value) then None else TravelVerdict(c, e, previous)
    case EdgeAuthFailure =>
      if e.source == "" then None
      else StuffingVerdict(c, e, Collect(history, FailureInWindow(e, e.time - c.stuffingWindow)))
    case EdgeSessionUse =>
      if e.source == "" || !HasSession(e) then None else
      var previous := Latest(Select(history, UseBefore(e, e.time - c.replayWindow)));
      if previous.None? || previous.value.source == "" then None else ReplayVerdict(c, e, previous)
    case OtherKind => None
  }
}
