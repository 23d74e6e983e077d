/**
Alerts and cases: `processEvent` and `persistAlertAndCase` as interleaved database statements.

Every event has at most one processor at a time; processors of different events and analysts interleave
between any two statements, and a processor may fail or vanish before any of them.  Redelivery and
recovery start a new processor on an unprocessed event, and its detection pass may find anything.
Alerts are kept by identifier, as are cases, and links are pairs; that the semantic keys are unique is
what the inserts ignore and the updates refuse, and is proved to hold.
*/
module AlertCases {
  import opened Results
  import CaseWorkflow

  type Status = CaseWorkflow.Status

  datatype Severity = Informational | Low | Medium | High | Critical

  datatype Priority = LowPriority | MediumPriority | HighPriority | CriticalPriority

  /** `casePriority` */
  function CasePriority(s: Severity): Priority {
    match s
    case Critical => CriticalPriority
    case High => HighPriority
    case Medium => MediumPriority
    case _ => LowPriority
  }

  function Rank(p: Priority): nat {
    match p
    case LowPriority => 0
    case MediumPriority => 1
    case HighPriority => 2
    case CriticalPriority => 3
  }

  function SeverityRank(s: Severity): nat { Rank(CasePriority(s)) }

  /** The `CASE WHEN` of the priority update. */
  function Raise(p: Priority, q: Priority): (r: Priority)
    ensures Rank(r) == if Rank(p) >= Rank(q) then Rank(p) else Rank(q)
  {
    if p == CriticalPriority || q == CriticalPriority then CriticalPriority
    else if p == HighPriority || q == HighPriority then HighPriority
    else if p == MediumPriority || q == MediumPriority then MediumPriority
    else LowPriority
  }

  datatype Entity = Device(id: string) | Actor(name: string)

  /** What the semantic digest of a case covers. */
  datatype Key = Key(rule: string, entity: Entity)

  /** An alert of a detection pass. */
  datatype Detected = Detected(id: string, rule: string, severity: Severity, actor: string)

  datatype Event = Event(device: Option<string>, processed: bool)

  datatype Alert = Alert(rule: string, event: string, severity: Severity)

  datatype Case = Case(key: Key, priority: Priority, status: Status)

  datatype Link = Link(caseId: string, alertId: string)

  function KeyOf(device: Option<string>, d: Detected): Key {
    Key(d.rule, if device.Some? && device.value != "" then Device(device.value) else Actor(d.actor))
  }

  /** Where a processor stands within `persistAlertAndCase` for its current alert. */
  datatype Stage =
    | Inserting
    | Selecting(inserted: bool)
    | Checking(inserted: bool, alert: string)
    | Opening(alert: string)
    | Finding(alert: string)
    | Linking(alert: string, caseId: string)

  datatype Processor = Processor(found: seq<Detected>, at: nat, stage: Stage)

  /**
  `carried` and `passes` are history: the alert with which a link was made, and the detection pass after
  which an event was marked processed.
  */
  datatype State = State(
    events: map<string, Event>,
    alerts: map<string, Alert>,
    cases: map<string, Case>,
    links: set<Link>,
    processors: map<string, Processor>,
    carried: map<Link, Detected>,
    passes: map<string, seq<Detected>>)

  const INITIAL := State(map[], map[], map[], {}, map[], map[], map[])

  datatype Step =
    | Ingests(event: string, device: Option<string>)
    | Begins(event: string, found: seq<Detected>)
    | Advances(event: string, uuid: string)
    | Fails(event: string)
    | Crashes(event: string)
    | Moves(caseId: string, status: Status)

  // ---------------------------------------------------------------- the statements

  predicate Occurs(s: State, a: string, rule: string, event: string) {
    a in s.alerts && s.alerts[a].rule == rule && s.alerts[a].event == event
  }

  predicate Occurred(s: State, rule: string, event: string) { exists a :: a in s.alerts && Occurs(s, a, rule, event) }

  predicate Holds(s: State, c: string, key: Key) {
    c in s.cases && s.cases[c].key == key && s.cases[c].status != CaseWorkflow.Closed
  }

  predicate Held(s: State, key: Key) { exists c :: c in s.cases && Holds(s, c, key) }

  predicate Linked(s: State, a: string) { exists l :: l in s.links && l.alertId == a }

  function Dropped(s: State, e: string): State { s.(processors := s.processors - {e}) }

  /** The catch clause: `markEventProcessed` with an error. */
  function Failed(s: State, e: string): State {
    var t := Dropped(s, e);
    if e in t.events then t.(events := t.events[e := t.events[e].(processed := false)]) else t
  }

  function At(s: State, e: string, p: Processor, stage: Stage): State {
    s.(processors := s.processors[e := p.(stage := stage)])
  }

  function NextAlert(s: State, e: string, p: Processor): State {
    s.(processors := s.processors[e := Processor(p.found, p.at + 1, Inserting)])
  }

  /** `INSERT OR IGNORE INTO alerts` */
  ghost function InsertAlert(s: State, e: string, p: Processor, d: Detected): State {
    if d.id in s.alerts || Occurred(s, d.rule, e) then At(s, e, p, Selecting(false))
    else At(s.(alerts := s.alerts[d.id := Alert(d.rule, e, d.severity)]), e, p, Selecting(true))
  }

  /** `SELECT alert_id ... WHERE rule_id = ? AND event_id = ?` */
  ghost function SelectAlert(s: State, e: string, p: Processor, d: Detected, inserted: bool): State {
    if a: string :| Occurs(s, a, d.rule, e) then At(s, e, p, Checking(inserted, a)) else Failed(s, e)
  }

  /** Only an alert that was there before may be linked already. */
  ghost function CheckLink(s: State, e: string, p: Processor, d: Detected, inserted: bool, a: string): State {
    if (!inserted || a != d.id) && Linked(s, a) then NextAlert(s, e, p) else At(s, e, p, Opening(a))
  }

  /** `INSERT OR IGNORE INTO cases` */
  ghost function OpenCase(s: State, e: string, p: Processor, a: string, key: Key, severity: Severity,
      uuid: string): State {
    if uuid in s.cases || Held(s, key) then At(s, e, p, Finding(a))
    else At(s.(cases := s.cases[uuid := Case(key, CasePriority(severity), CaseWorkflow.Open)]), e, p, Finding(a))
  }

  /** `SELECT case_id ... WHERE semantic_key = ? AND status != 'closed'` */
  ghost function FindCase(s: State, e: string, p: Processor, a: string, key: Key): State {
    if c: string :| Holds(s, c, key) then At(s, e, p, Linking(a, c)) else Failed(s, e)
  }

  /** The last batch: the link, and the priority of its case. */
  function LinkAlert(s: State, e: string, p: Processor, d: Detected, a: string, c: string): State
    requires c in s.cases
  {
    var l := Link(c, a);
    var row := s.cases[c];
    NextAlert(s.(links := s.links + {l},
                 carried := if l in s.links then s.carried else s.carried[l := d],
                 cases := s.cases[c := row.(priority := Raise(row.priority, CasePriority(d.severity)))]), e, p)
  }

  function MarkProcessed(s: State, e: string, p: Processor): State
    requires e in s.events
  {
    Dropped(s.(events := s.events[e := s.events[e].(processed := true)], passes := s.passes[e := p.found]), e)
  }

  /** The next statement of the processor of an event. */
  ghost function Advance(s: State, e: string, uuid: string): State
    requires e in s.processors && e in s.events
  {
    var p := s.processors[e];
    if p.at >= |p.found| then MarkProcessed(s, e, p) else
    var d := p.found[p.at];
    var key := KeyOf(s.events[e].device, d);
    match p.stage
    case Inserting => InsertAlert(s, e, p, d)
    case Selecting(inserted) => SelectAlert(s, e, p, d, inserted)
    case Checking(inserted, a) => CheckLink(s, e, p, d, inserted, a)
    case Opening(a) => OpenCase(s, e, p, a, key, d.severity, uuid)
    case Finding(a) => FindCase(s, e, p, a, key)
    case Linking(a, c) => if c in s.cases then LinkAlert(s, e, p, d, a, c) else Failed(s, e)
  }

  /** A status change by an analyst; the unique index refuses a second active case for one key. */
  ghost function Move(s: State, c: string, status: Status): State {
    if c in s.cases && CaseWorkflow.Allowed(s.cases[c].status, status) &&
       !(s.cases[c].status == CaseWorkflow.Closed && Held(s, s.cases[c].key))
    then s.(cases := s.cases[c := s.cases[c].(status := status)]) else s
  }

  ghost function Apply(s: State, step: Step): State {
    match step
    case Ingests(e, device) => if e in s.events then s else s.(events := s.events[e := Event(device, false)])
    case Begins(e, found) =>
      if e !in s.events || s.events[e].processed || e in s.processors then s
      else s.(processors := s.processors[e := Processor(found, 0, Inserting)])
    case Advances(e, uuid) => if e in s.processors && e in s.events then Advance(s, e, uuid) else s
    case Fails(e) => if e in s.processors then Failed(s, e) else s
    case Crashes(e) => Dropped(s, e)
    case Moves(c, status) => Move(s, c, status)
  }

  ghost function Run(steps: seq<Step>): State {
    if steps == [] then INITIAL else Apply(Run(steps[..|steps| - 1]), steps[|steps| - 1])
  }

  // ---------------------------------------------------------------- invariants of the tables

  ghost predicate OneAlert(s: State) {
    forall a, b :: a in s.alerts && b in s.alerts && Occurs(s, b, s.alerts[a].rule, s.alerts[a].event) ==> a == b
  }

  ghost predicate OneCase(s: State) {
    forall k, l :: k in s.links && l in s.links && k.alertId == l.alertId ==> k == l
  }

  ghost predicate OneActive(s: State) {
    forall c, d :: c in s.cases && Holds(s, c, s.cases[c].key) && Holds(s, d, s.cases[c].key) ==> c == d
  }

  /** A link joins an alert to a case of its rule and entity, of at least the priority it came with. */
  ghost predicate LinkOk(s: State, l: Link) {
    && l.alertId in s.alerts && l.caseId in s.cases && l in s.carried && s.alerts[l.alertId].event in s.events
    && s.carried[l].rule == s.alerts[l.alertId].rule
    && s.cases[l.caseId].key == KeyOf(s.events[s.alerts[l.alertId].event].device, s.carried[l])
    && Rank(s.cases[l.caseId].priority) >= SeverityRank(s.carried[l].severity)
  }

  ghost predicate TablesOk(s: State) {
    && OneAlert(s) && OneCase(s) && OneActive(s)
    && forall l :: l in s.links ==> LinkOk(s, l)
  }

  // ---------------------------------------------------------------- invariants of processors

  /** The alert of this rule and event is stored and linked. */
  ghost predicate Settled(s: State, rule: string, e: string) {
    exists l :: l in s.links && Occurs(s, l.alertId, rule, e)
  }

  ghost predicate StageOk(s: State, e: string, d: Detected, key: Key, stage: Stage) {
    match stage
    case Inserting => true
    case Selecting(inserted) => inserted ==> Occurs(s, d.id, d.rule, e) && !Linked(s, d.id)
    case Checking(inserted, a) => Occurs(s, a, d.rule, e) && (inserted && a == d.id ==> !Linked(s, a))
    case Opening(a) => Occurs(s, a, d.rule, e) && !Linked(s, a)
    case Finding(a) => Occurs(s, a, d.rule, e) && !Linked(s, a)
    case Linking(a, c) => Occurs(s, a, d.rule, e) && !Linked(s, a) && c in s.cases && s.cases[c].key == key
  }

  ghost predicate SettledUpTo(s: State, e: string, found: seq<Detected>, n: nat) {
    n <= |found| && forall i :: 0 <= i < n ==> Settled(s, found[i].rule, e)
  }

  ghost predicate ProcessorOk(s: State, e: string, p: Processor) {
    && e in s.events && !s.events[e].processed
    && SettledUpTo(s, e, p.found, p.at)
    && (p.at < |p.found| ==> StageOk(s, e, p.found[p.at], KeyOf(s.events[e].device, p.found[p.at]), p.stage))
  }

  ghost predicate EventOk(s: State, e: string) {
    e in s.events && s.events[e].processed ==>
      e in s.passes && SettledUpTo(s, e, s.passes[e], |s.passes[e]|)
  }

  ghost predicate Inv(s: State) {
    && TablesOk(s)
    && (forall e :: e in s.processors ==> ProcessorOk(s, e, s.processors[e]))
    && (forall e :: e in s.events ==> EventOk(s, e))
  }

  // ---------------------------------------------------------------- what one statement leaves alone

  /**
  What a statement run for event `e` may do to the tables: rows stay, cases keep their keys, and only
  alerts of that event are linked.
  */
  ghost predicate Extends(s: State, t: State, e: string) {
    && (forall a :: a in s.alerts ==> a in t.alerts && t.alerts[a] == s.alerts[a])
    && (forall c :: c in s.cases ==> c in t.cases && t.cases[c].key == s.cases[c].key)
    && s.links <= t.links
    && (forall l :: l in t.links && l !in s.links ==> l.alertId in s.alerts && s.alerts[l.alertId].event == e)
  }

  lemma {:induction false} SettledStays(s: State, t: State, e: string, rule: string, x: string)
    requires Extends(s, t, e) && Settled(s, rule, x)
    ensures Settled(t, rule, x)
  {
    var l :| l in s.links && Occurs(s, l.alertId, rule, x);
    assert Occurs(t, l.alertId, rule, x);
  }

  lemma {:induction false} SettledUpToStays(s: State, t: State, e: string, x: string, found: seq<Detected>, n: nat)
    requires Extends(s, t, e) && SettledUpTo(s, x, found, n)
    ensures SettledUpTo(t, x, found, n)
  {
    hide Extends, Settled;
    forall i | 0 <= i < n ensures Settled(t, found[i].rule, x) {
      SettledStays(s, t, e, found[i].rule, x);
    }
  }

  lemma {:induction false} UnlinkedStays(s: State, t: State, e: string, a: string)
    requires Extends(s, t, e) && a in s.alerts && s.alerts[a].event != e && !Linked(s, a)
    ensures !Linked(t, a)
  {
  }

  /** Processors of other events are not disturbed. */
  lemma {:induction false} ProcessorStays(s: State, t: State, e: string, x: string, p: Processor)
    requires Extends(s, t, e) && x != e && ProcessorOk(s, x, p)
    requires x in t.events && t.events[x] == s.events[x]
    ensures ProcessorOk(t, x, p)
  {
    hide SettledUpTo, Linked;
    SettledUpToStays(s, t, e, x, p.found, p.at);
    forall a | a in s.alerts && s.alerts[a].event == x && !Linked(s, a) ensures !Linked(t, a) {
      UnlinkedStays(s, t, e, a);
    }
  }

  /** A statement for event `e` keeps the invariant if it keeps the tables and its own processor right. */
  lemma {:induction false} StatementKeeps(s: State, t: State, e: string)
    requires Inv(s) && Extends(s, t, e) && TablesOk(t)
    requires t.events == s.events && t.passes == s.passes
    requires t.processors.Keys <= s.processors.Keys + {e}
    requires forall x :: x in t.processors && x != e ==> t.processors[x] == s.processors[x]
    requires e in t.processors ==> ProcessorOk(t, e, t.processors[e])
    ensures Inv(t)
  {
    hide TablesOk, Extends, ProcessorOk, SettledUpTo;
    forall x | x in t.processors ensures ProcessorOk(t, x, t.processors[x]) {
      if x != e {
        EventsOfProcessors(s, x);
        ProcessorStays(s, t, e, x, s.processors[x]);
      }
    }
    forall x | x in t.events ensures EventOk(t, x) {
      assert EventOk(s, x);
      if t.events[x].processed {
        SettledUpToStays(s, t, e, x, s.passes[x], |s.passes[x]|);
      }
    }
  }

  lemma {:induction false} EventsOfProcessors(s: State, x: string)
    requires Inv(s) && x in s.processors
    ensures x in s.events && !s.events[x].processed && ProcessorOk(s, x, s.processors[x])
  {
  }

  /** The processor or the history changes, the tables do not. */
  predicate SameTables(s: State, t: State) {
    t.alerts == s.alerts && t.cases == s.cases && t.links == s.links && t.carried == s.carried &&
      t.events.Keys == s.events.Keys
    && forall e :: e in s.events ==> t.events[e].device == s.events[e].device
  }

  lemma {:induction false} SameTablesKeep(s: State, t: State, e: string)
    requires SameTables(s, t) && TablesOk(s)
    ensures TablesOk(t) && Extends(s, t, e)
  {
    hide KeyOf, Rank;
    assert forall l :: l in t.links ==> LinkOk(s, l);
    assert forall c, k :: Holds(t, c, k) <==> Holds(s, c, k);
    assert forall a, r, x :: Occurs(t, a, r, x) <==> Occurs(s, a, r, x);
  }

  // ---------------------------------------------------------------- each statement keeps the invariant

  /** The processor of `e` and the alert it is at. */
  ghost predicate Current(s: State, e: string, p: Processor, d: Detected) {
    e in s.events && e in s.processors && p == s.processors[e] && p.at < |p.found| && d == p.found[p.at]
  }

  lemma {:induction false} AtKeeps(s: State, e: string, p: Processor, d: Detected, stage: Stage)
    requires Inv(s) && Current(s, e, p, d)
    requires StageOk(s, e, d, KeyOf(s.events[e].device, d), stage)
    ensures Inv(At(s, e, p, stage))
  {
    hide StageOk, TablesOk, Extends, SettledUpTo;
    var t := At(s, e, p, stage);
    SameTablesKeep(s, t, e);
    SettledUpToStays(s, t, e, e, p.found, p.at);
    StageFrame(s, t, e, d, KeyOf(s.events[e].device, d), stage);
    StatementKeeps(s, t, e);
  }

  lemma {:induction false} StageFrame(s: State, t: State, e: string, d: Detected, key: Key, stage: Stage)
    requires SameTables(s, t) && StageOk(s, e, d, key, stage)
    ensures StageOk(t, e, d, key, stage)
  {
  }

  lemma {:induction false} NextKeeps(s: State, e: string, p: Processor, d: Detected)
    requires Inv(s) && Current(s, e, p, d) && Settled(s, d.rule, e)
    ensures Inv(NextAlert(s, e, p))
  {
    hide TablesOk, Extends, Settled;
    var t := NextAlert(s, e, p);
    SameTablesKeep(s, t, e);
    assert SettledUpTo(s, e, p.found, p.at + 1);
    SettledUpToStays(s, t, e, e, p.found, p.at + 1);
    StatementKeeps(s, t, e);
  }

  /** The processor of an unprocessed event goes away. */
  lemma {:induction false} DroppedKeeps(s: State, e: string)
    requires Inv(s)
    ensures Inv(Dropped(s, e))
    ensures e in s.processors ==> Failed(s, e) == Dropped(s, e)
  {
    hide TablesOk, Extends, SettledUpTo;
    var t := Dropped(s, e);
    SameTablesKeep(s, t, e);
    StatementKeeps(s, t, e);
    if e in s.processors {
      EventsOfProcessors(s, e);
      assert t.events[e := t.events[e].(processed := false)] == t.events;
    }
  }

  lemma {:induction false} AlertTables(s: State, e: string, d: Detected, t: State)
    requires TablesOk(s) && d.id !in s.alerts && !Occurred(s, d.rule, e)
    requires t == s.(alerts := s.alerts[d.id := Alert(d.rule, e, d.severity)])
    ensures TablesOk(t) && Extends(s, t, e) && Occurs(t, d.id, d.rule, e) && !Linked(t, d.id)
  {
    hide KeyOf, Rank, OneAlert, OneActive, Holds;
    NewAlertIsOnly(s, e, d, t);
    SameCasesActive(s, t);
    hide Occurred;
    assert forall l :: l in t.links ==> LinkOk(s, l);
  }

  lemma {:induction false} NewAlertIsOnly(s: State, e: string, d: Detected, t: State)
    requires OneAlert(s) && d.id !in s.alerts && !Occurred(s, d.rule, e)
    requires t == s.(alerts := s.alerts[d.id := Alert(d.rule, e, d.severity)])
    ensures OneAlert(t)
  {
    assert forall a :: a in s.alerts ==> !Occurs(s, a, d.rule, e);
    assert forall a, r, x :: Occurs(t, a, r, x) <==> Occurs(s, a, r, x) || (a == d.id && r == d.rule && x == e);
  }

  lemma {:induction false} SameCasesActive(s: State, t: State)
    requires OneActive(s) && t.cases == s.cases
    ensures OneActive(t)
  {
    assert forall c, k :: Holds(t, c, k) <==> Holds(s, c, k);
  }

  /** Tables changed by a statement of `e`, then its processor moves on within the same alert. */
  lemma {:induction false} ChangeKeeps(s: State, u: State, e: string, p: Processor, d: Detected, stage: Stage)
    requires Inv(s) && Current(s, e, p, d)
    requires Extends(s, u, e) && TablesOk(u) && u.events == s.events && u.passes == s.passes &&
      u.processors == s.processors
    requires StageOk(u, e, d, KeyOf(s.events[e].device, d), stage)
    ensures Inv(At(u, e, p, stage))
  {
    hide StageOk, TablesOk, Extends, SettledUpTo;
    var t := At(u, e, p, stage);
    SameTablesKeep(u, t, e);
    ExtendsTables(s, u, t, e);
    SettledUpToStays(s, t, e, e, p.found, p.at);
    StageFrame(u, t, e, d, KeyOf(s.events[e].device, d), stage);
    StatementKeeps(s, t, e);
  }

  lemma {:induction false} ExtendsTables(s: State, u: State, t: State, e: string)
    requires Extends(s, u, e) && SameTables(u, t)
    ensures Extends(s, t, e)
  {
  }

  lemma {:induction false} InsertKeeps(s: State, e: string, p: Processor, d: Detected)
    requires Inv(s) && Current(s, e, p, d)
    ensures Inv(InsertAlert(s, e, p, d))
  {
    hide Inv, Extends, TablesOk, Occurred, Linked;
    TablesOf(s);
    if d.id in s.alerts || Occurred(s, d.rule, e) {
      AtKeeps(s, e, p, d, Selecting(false));
    } else {
      var u := s.(alerts := s.alerts[d.id := Alert(d.rule, e, d.severity)]);
      AlertTables(s, e, d, u);
      ChangeKeeps(s, u, e, p, d, Selecting(true));
    }
  }

  lemma {:induction false} TablesOf(s: State) requires Inv(s) ensures TablesOk(s) {}

  lemma {:induction false} SelectKeeps(s: State, e: string, p: Processor, d: Detected)
    requires Inv(s) && Current(s, e, p, d) && p.stage.Selecting?
    ensures Inv(SelectAlert(s, e, p, d, p.stage.inserted))
  {
    hide SettledUpTo, TablesOk, Linked;
    EventsOfProcessors(s, e);
    assert StageOk(s, e, d, KeyOf(s.events[e].device, d), p.stage);
    if exists a: string :: Occurs(s, a, d.rule, e) {
      var a: string :| Occurs(s, a, d.rule, e) &&
        SelectAlert(s, e, p, d, p.stage.inserted) == At(s, e, p, Checking(p.stage.inserted, a));
      AtKeeps(s, e, p, d, Checking(p.stage.inserted, a));
    } else {
      DroppedKeeps(s, e);
    }
  }

  lemma {:induction false} CheckKeeps(s: State, e: string, p: Processor, d: Detected)
    requires Inv(s) && Current(s, e, p, d) && p.stage.Checking?
    ensures Inv(CheckLink(s, e, p, d, p.stage.inserted, p.stage.alert))
  {
    hide SettledUpTo, TablesOk;
    EventsOfProcessors(s, e);
    var a := p.stage.alert;
    assert StageOk(s, e, d, KeyOf(s.events[e].device, d), p.stage);
    if (!p.stage.inserted || a != d.id) && Linked(s, a) {
      var l :| l in s.links && l.alertId == a;
      assert Settled(s, d.rule, e);
      NextKeeps(s, e, p, d);
    } else {
      AtKeeps(s, e, p, d, Opening(a));
    }
  }

  lemma {:induction false} CaseTables(s: State, e: string, key: Key, priority: Priority, uuid: string, t: State)
    requires TablesOk(s) && uuid !in s.cases && !Held(s, key)
    requires t == s.(cases := s.cases[uuid := Case(key, priority, CaseWorkflow.Open)])
    ensures TablesOk(t) && Extends(s, t, e)
  {
    hide KeyOf, Rank;
    assert forall l :: l in t.links ==> LinkOk(s, l);
    assert forall a, r, x :: Occurs(t, a, r, x) <==> Occurs(s, a, r, x);
    assert forall c, k :: Holds(t, c, k) <==> Holds(s, c, k) || (c == uuid && k == key);
    assert forall c :: c in s.cases ==> !Holds(s, c, key);
  }

  lemma {:induction false} OpenKeeps(s: State, e: string, p: Processor, d: Detected, uuid: string)
    requires Inv(s) && Current(s, e, p, d) && p.stage.Opening?
    ensures Inv(OpenCase(s, e, p, p.stage.alert, KeyOf(s.events[e].device, d), d.severity, uuid))
  {
    hide TablesOk, Extends, Held, KeyOf;
    EventsOfProcessors(s, e);
    TablesOf(s);
    var a, key := p.stage.alert, KeyOf(s.events[e].device, d);
    assert StageOk(s, e, d, key, p.stage);
    if uuid in s.cases || Held(s, key) {
      AtKeeps(s, e, p, d, Finding(a));
    } else {
      var u := s.(cases := s.cases[uuid := Case(key, CasePriority(d.severity), CaseWorkflow.Open)]);
      CaseTables(s, e, key, CasePriority(d.severity), uuid, u);
      ChangeKeeps(s, u, e, p, d, Finding(a));
    }
  }

  lemma {:induction false} FindKeeps(s: State, e: string, p: Processor, d: Detected)
    requires Inv(s) && Current(s, e, p, d) && p.stage.Finding?
    ensures Inv(FindCase(s, e, p, p.stage.alert, KeyOf(s.events[e].device, d)))
  {
    hide TablesOk, SettledUpTo, Linked, KeyOf;
    EventsOfProcessors(s, e);
    var a, key := p.stage.alert, KeyOf(s.events[e].device, d);
    assert StageOk(s, e, d, key, p.stage);
    if exists c: string :: Holds(s, c, key) {
      var c: string :| Holds(s, c, key) && FindCase(s, e, p, a, key) == At(s, e, p, Linking(a, c));
      AtKeeps(s, e, p, d, Linking(a, c));
    } else {
      DroppedKeeps(s, e);
    }
  }

  /** The tables after the last batch. */
  function WithLink(s: State, d: Detected, a: string, c: string): State
    requires c in s.cases
  {
    var l := Link(c, a);
    var row := s.cases[c];
    s.(links := s.links + {l}, carried := if l in s.links then s.carried else s.carried[l := d],
       cases := s.cases[c := row.(priority := Raise(row.priority, CasePriority(d.severity)))])
  }

  lemma {:induction false} LinkTables(s: State, e: string, d: Detected, a: string, c: string)
    requires TablesOk(s) && e in s.events && Occurs(s, a, d.rule, e) && !Linked(s, a)
    requires c in s.cases && s.cases[c].key == KeyOf(s.events[e].device, d)
    ensures TablesOk(WithLink(s, d, a, c)) && Extends(s, WithLink(s, d, a, c), e)
    ensures Settled(WithLink(s, d, a, c), d.rule, e)
  {
    hide KeyOf;
    var t := WithLink(s, d, a, c);
    var l := Link(c, a);
    assert l !in s.links;
    assert forall b, r, x :: Occurs(t, b, r, x) <==> Occurs(s, b, r, x);
    assert forall b, k :: Holds(t, b, k) <==> Holds(s, b, k);
    assert l in t.links && Occurs(t, l.alertId, d.rule, e);
    forall k | k in t.links ensures LinkOk(t, k) {
      if k != l {
        assert LinkOk(s, k);
      }
    }
    assert OneCase(t) by {
      forall k, m | k in t.links && m in t.links && k.alertId == m.alertId ensures k == m {
        assert k in s.links ==> k.alertId != a;
        assert m in s.links ==> m.alertId != a;
      }
    }
  }

  lemma {:induction false} LinkKeeps(s: State, e: string, p: Processor, d: Detected)
    requires Inv(s) && Current(s, e, p, d) && p.stage.Linking?
    ensures p.stage.caseId in s.cases && Inv(LinkAlert(s, e, p, d, p.stage.alert, p.stage.caseId))
  {
    hide TablesOk, Extends, KeyOf, Settled, Linked;
    EventsOfProcessors(s, e);
    TablesOf(s);
    var a, c := p.stage.alert, p.stage.caseId;
    assert StageOk(s, e, d, KeyOf(s.events[e].device, d), p.stage);
    LinkTables(s, e, d, a, c);
    var u := WithLink(s, d, a, c);
    var t := LinkAlert(s, e, p, d, a, c);
    assert t == NextAlert(u, e, p);
    SameTablesKeep(u, t, e);
    ExtendsTables(s, u, t, e);
    SettledUpToStays(s, u, e, e, p.found, p.at);
    assert SettledUpTo(u, e, p.found, p.at + 1);
    SettledUpToStays(u, t, e, e, p.found, p.at + 1);
    StatementKeeps(s, t, e);
  }

  lemma {:induction false} MarkKeeps(s: State, e: string, p: Processor)
    requires Inv(s) && e in s.events && e in s.processors && p == s.processors[e] && p.at >= |p.found|
    ensures Inv(MarkProcessed(s, e, p))
  {
    hide TablesOk, Extends, SettledUpTo, StageOk;
    EventsOfProcessors(s, e);
    var t := MarkProcessed(s, e, p);
    SameTablesKeep(s, t, e);
    forall x | x in t.processors ensures ProcessorOk(t, x, t.processors[x]) {
      EventsOfProcessors(s, x);
      ProcessorStays(s, t, e, x, s.processors[x]);
    }
    assert SettledUpTo(s, e, p.found, |p.found|) by { AtTheEnd(s, e, p); }
    forall x | x in t.events ensures EventOk(t, x) {
      assert EventOk(s, x);
      if t.events[x].processed {
        SettledUpToStays(s, t, e, x, t.passes[x], |t.passes[x]|);
      }
    }
  }

  lemma {:induction false} AtTheEnd(s: State, e: string, p: Processor)
    requires SettledUpTo(s, e, p.found, p.at) && p.at >= |p.found|
    ensures SettledUpTo(s, e, p.found, |p.found|)
  {
  }

  lemma {:induction false} AdvanceKeeps(s: State, e: string, uuid: string)
    requires Inv(s) && e in s.processors && e in s.events
    ensures Inv(Advance(s, e, uuid))
  {
    hide Inv, InsertAlert, SelectAlert, CheckLink, OpenCase, FindCase, LinkAlert, MarkProcessed, KeyOf;
    var p := s.processors[e];
    if p.at >= |p.found| {
      MarkKeeps(s, e, p);
    } else {
      var d := p.found[p.at];
      match p.stage
      case Inserting => InsertKeeps(s, e, p, d);
      case Selecting(_) => SelectKeeps(s, e, p, d);
      case Checking(_, _) => CheckKeeps(s, e, p, d);
      case Opening(_) => OpenKeeps(s, e, p, d, uuid);
      case Finding(_) => FindKeeps(s, e, p, d);
      case Linking(_, _) => LinkKeeps(s, e, p, d);
    }
  }

  // ---------------------------------------------------------------- the other steps

  lemma {:induction false} MoveActive(s: State, c: string, status: Status)
    requires OneActive(s)
    ensures OneActive(Move(s, c, status))
  {
    var t := Move(s, c, status);
    if t != s {
      MovedCase(s, c, status);
      hide Move;
      forall x, y | x in t.cases && Holds(t, x, t.cases[x].key) && Holds(t, y, t.cases[x].key) ensures x == y {
        assert x != c ==> Holds(s, x, s.cases[x].key);
        assert y != c ==> Holds(s, y, s.cases[x].key);
      }
    }
  }

  /** A case that becomes active again was the only one for its key, and one that was active stays so or closes. */
  lemma {:induction false} MovedCase(s: State, c: string, status: Status)
    requires Move(s, c, status) != s
    ensures c in s.cases && Move(s, c, status).cases == s.cases[c := s.cases[c].(status := status)]
    ensures Holds(s, c, s.cases[c].key) || forall b :: b in s.cases ==> !Holds(s, b, s.cases[c].key)
  {
    hide CaseWorkflow.Allowed;
  }

  lemma {:induction false} MoveTables(s: State, c: string, status: Status)
    requires TablesOk(s)
    ensures TablesOk(Move(s, c, status)) && forall e :: Extends(s, Move(s, c, status), e)
  {
    hide KeyOf, Rank, CaseWorkflow.Allowed, OneActive, Held, Holds;
    MoveActive(s, c, status);
    var t := Move(s, c, status);
    assert forall l :: l in t.links ==> LinkOk(s, l);
    assert forall a, r, x :: Occurs(t, a, r, x) <==> Occurs(s, a, r, x);
  }

  /** A step that serves no event keeps every processor right. */
  lemma {:induction false} OutsideKeeps(s: State, t: State)
    requires Inv(s) && TablesOk(t) && (forall e :: Extends(s, t, e))
    requires t.processors == s.processors && t.passes == s.passes
    requires forall e :: e in s.events ==> e in t.events && t.events[e] == s.events[e]
    requires forall e :: e in t.events && e !in s.events ==> !t.events[e].processed
    ensures Inv(t)
  {
    hide TablesOk, Extends, ProcessorOk, SettledUpTo;
    forall x | x in t.processors ensures ProcessorOk(t, x, t.processors[x]) {
      EventsOfProcessors(s, x);
      assert Extends(s, t, x + "'");
      ProcessorStays(s, t, x + "'", x, s.processors[x]);
    }
    forall x | x in t.events ensures EventOk(t, x) {
      if x in s.events {
        assert EventOk(s, x) && Extends(s, t, x);
        if t.events[x].processed {
          SettledUpToStays(s, t, x, x, s.passes[x], |s.passes[x]|);
        }
      }
    }
  }

  lemma {:induction false} MoveKeeps(s: State, c: string, status: Status)
    requires Inv(s)
    ensures Inv(Move(s, c, status))
  {
    hide Inv, TablesOk, Extends;
    TablesOf(s);
    MoveTables(s, c, status);
    OutsideKeeps(s, Move(s, c, status));
  }

  lemma {:induction false} IngestKeeps(s: State, e: string, device: Option<string>)
    requires Inv(s)
    ensures Inv(Apply(s, Ingests(e, device)))
  {
    hide KeyOf, Rank, ProcessorOk, EventOk;
    if e !in s.events {
      var t := Apply(s, Ingests(e, device));
      assert forall l :: l in t.links ==> LinkOk(s, l);
      assert forall c, k :: Holds(t, c, k) <==> Holds(s, c, k);
      assert forall a, r, x :: Occurs(t, a, r, x) <==> Occurs(s, a, r, x);
      OutsideKeeps(s, t);
    }
  }

  lemma {:induction false} BeginKeeps(s: State, e: string, found: seq<Detected>)
    requires Inv(s)
    ensures Inv(Apply(s, Begins(e, found)))
  {
    hide TablesOk, Extends;
    var t := Apply(s, Begins(e, found));
    if t != s {
      SameTablesKeep(s, t, e);
      StatementKeeps(s, t, e);
    }
  }

  lemma {:induction false} KeepsInv(s: State, step: Step)
    requires Inv(s)
    ensures Inv(Apply(s, step))
  {
    hide Inv, Advance, Move, Dropped, Failed;
    match step
    case Ingests(e, device) => IngestKeeps(s, e, device);
    case Begins(e, found) => BeginKeeps(s, e, found);
    case Advances(e, uuid) => if e in s.processors && e in s.events { AdvanceKeeps(s, e, uuid); }
    case Fails(e) => DroppedKeeps(s, e);
    case Crashes(e) => DroppedKeeps(s, e);
    case Moves(c, status) => MoveKeeps(s, c, status);
  }

  lemma {:induction false} RunKeepsInv(steps: seq<Step>)
    ensures Inv(Run(steps))
  {
    hide Inv, Apply;
    if steps == [] {
      NothingYet();
    } else {
      RunKeepsInv(steps[..|steps| - 1]);
      KeepsInv(Run(steps[..|steps| - 1]), steps[|steps| - 1]);
    }
  }

  lemma {:induction false} NothingYet() ensures Inv(INITIAL) {}

  // ---------------------------------------------------------------- main results

  /** Alerts of the same rule and event. */
  predicate Same(a: Alert, b: Alert) { a.rule == b.rule && a.event == b.event }

  /**
  Over every run with redelivery, failures, crashes and analysts in between: a rule and event have one
  alert, an alert is linked to at most one case, one case per semantic key is active, and every alert of
  the pass after which an event was marked processed is stored and linked.
  */
  lemma {:induction false} EveryRun(steps: seq<Step>)
    ensures var s := Run(steps);
      && (forall a, b :: a in s.alerts && b in s.alerts && Same(s.alerts[a], s.alerts[b]) ==> a == b)
      && OneCase(s) && OneActive(s)
      && (forall l :: l in s.links ==> LinkOk(s, l))
      && (forall e :: e in s.events && s.events[e].processed ==>
            e in s.passes && forall d :: d in s.passes[e] ==> Settled(s, d.rule, e))
  {
    hide Run, OneCase, OneActive, LinkOk, Settled, ProcessorOk;
    RunKeepsInv(steps);
    var s := Run(steps);
    forall a, b | a in s.alerts && b in s.alerts && Same(s.alerts[a], s.alerts[b])
      ensures a == b
    {
      assert Occurs(s, b, s.alerts[a].rule, s.alerts[a].event);
    }
    forall e | e in s.events && s.events[e].processed
      ensures e in s.passes && forall d :: d in s.passes[e] ==> Settled(s, d.rule, e)
    {
      assert EventOk(s, e);
    }
  }

  /** What the statements of a processor leave as it was. */
  ghost predicate Onward(s: State, t: State, e: string) {
    && (forall x :: x in s.events && x != e ==> x in t.events && t.events[x] == s.events[x])
    && (forall x :: x in s.passes && x != e ==> x in t.passes && t.passes[x] == s.passes[x])
    && (forall c :: c in s.cases ==>
          c in t.cases && t.cases[c].key == s.cases[c].key && Rank(t.cases[c].priority) >= Rank(s.cases[c].priority))
  }

  /** Statements that only read, or only mark the event. */
  ghost predicate Quiet(s: State, t: State, e: string) {
    && t.alerts == s.alerts && t.links == s.links && t.carried == s.carried && t.cases == s.cases
    && t.processors.Keys <= s.processors.Keys
    && (forall x :: x in t.processors ==> t.processors[x].found == s.processors[x].found)
    && (forall x :: x in s.events && x != e ==> x in t.events && t.events[x] == s.events[x])
    && (forall x :: x in s.passes && x != e ==> x in t.passes && t.passes[x] == s.passes[x])
  }

  lemma {:induction false} QuietReads(s: State, e: string, p: Processor, d: Detected, key: Key, inserted: bool,
      a: string)
    requires e in s.processors && p == s.processors[e]
    ensures Quiet(s, SelectAlert(s, e, p, d, inserted), e)
    ensures Quiet(s, CheckLink(s, e, p, d, inserted, a), e)
    ensures Quiet(s, FindCase(s, e, p, a, key), e)
    ensures Quiet(s, Failed(s, e), e)
  {
    hide Occurs, Linked, Holds, At, NextAlert, Failed, Quiet;
    forall stage ensures Quiet(s, At(s, e, p, stage), e) { QuietAt(s, e, p, stage); }
    QuietAt(s, e, p, Inserting);
  }

  lemma {:induction false} QuietAt(s: State, e: string, p: Processor, stage: Stage)
    requires e in s.processors && p == s.processors[e]
    ensures Quiet(s, At(s, e, p, stage), e) && Quiet(s, NextAlert(s, e, p), e) && Quiet(s, Failed(s, e), e)
  {
    hide At, NextAlert, Failed, Quiet;
    QuietMove(s, e, p.(stage := stage), At(s, e, p, stage)) by { StageShape(s, e, p, stage); }
    QuietMove(s, e, Processor(p.found, p.at + 1, Inserting), NextAlert(s, e, p)) by { StageShape(s, e, p, stage); }
    QuietFailure(s, e);
  }

  lemma {:induction false} StageShape(s: State, e: string, p: Processor, stage: Stage)
    ensures At(s, e, p, stage) == s.(processors := s.processors[e := p.(stage := stage)])
    ensures NextAlert(s, e, p) == s.(processors := s.processors[e := Processor(p.found, p.at + 1, Inserting)])
  {
  }

  lemma {:induction false} QuietMove(s: State, e: string, p: Processor, t: State)
    requires e in s.processors && p.found == s.processors[e].found && t == s.(processors := s.processors[e := p])
    ensures Quiet(s, t, e)
  {
  }

  lemma {:induction false} QuietFailure(s: State, e: string)
    ensures Quiet(s, Failed(s, e), e)
  {
  }

  lemma {:induction false} QuietMark(s: State, e: string, p: Processor)
    requires e in s.processors && p == s.processors[e] && e in s.events
    ensures Quiet(s, MarkProcessed(s, e, p), e)
  {
  }

  lemma {:induction false} LinkOnward(s: State, e: string, p: Processor, d: Detected, a: string, c: string)
    requires c in s.cases
    ensures Onward(s, LinkAlert(s, e, p, d, a, c), e)
  {
    hide Rank, CasePriority;
  }

  lemma {:induction false} WritesOnward(s: State, e: string, p: Processor, d: Detected, a: string, key: Key,
      uuid: string)
    ensures Onward(s, InsertAlert(s, e, p, d), e)
    ensures Onward(s, OpenCase(s, e, p, a, key, d.severity, uuid), e)
  {
    hide Occurred, Held, Rank;
  }

  /** A statement of a processor is quiet, or inserts an alert, opens a case or makes a link. */
  lemma {:induction false} AdvanceKinds(s: State, e: string, uuid: string)
    requires e in s.processors && e in s.events
    ensures var p, t := s.processors[e], Advance(s, e, uuid);
      || Quiet(s, t, e)
      || (p.at < |p.found| && p.stage.Inserting? && t == InsertAlert(s, e, p, p.found[p.at]))
      || (p.at < |p.found| && p.stage.Opening? &&
          t == OpenCase(s, e, p, p.stage.alert, KeyOf(s.events[e].device, p.found[p.at]), p.found[p.at].severity, uuid))
      || (p.at < |p.found| && p.stage.Linking? && p.stage.caseId in s.cases &&
          t == LinkAlert(s, e, p, p.found[p.at], p.stage.alert, p.stage.caseId))
  {
    hide Quiet, InsertAlert, SelectAlert, CheckLink, OpenCase, FindCase, LinkAlert, MarkProcessed, Failed, KeyOf;
    var p := s.processors[e];
    if p.at >= |p.found| {
      QuietMark(s, e, p);
    } else {
      var d := p.found[p.at];
      var key := KeyOf(s.events[e].device, d);
      match p.stage
      case Selecting(inserted) => QuietReads(s, e, p, d, key, inserted, "");
      case Checking(inserted, a) => QuietReads(s, e, p, d, key, inserted, a);
      case Finding(a) => QuietReads(s, e, p, d, key, false, a);
      case Linking(a, c) => QuietReads(s, e, p, d, key, false, a);
      case _ =>
    }
  }

  lemma {:induction false} AdvanceOnward(s: State, e: string, uuid: string)
    requires e in s.processors && e in s.events
    ensures Onward(s, Advance(s, e, uuid), e)
  {
    hide Advance, InsertAlert, OpenCase, LinkAlert, KeyOf, Rank;
    AdvanceKinds(s, e, uuid);
    var p := s.processors[e];
    if p.at < |p.found| {
      var d := p.found[p.at];
      if p.stage.Inserting? || p.stage.Opening? {
        WritesOnward(s, e, p, d, if p.stage.Opening? then p.stage.alert else "", KeyOf(s.events[e].device, d), uuid);
      } else if p.stage.Linking? && p.stage.caseId in s.cases {
        LinkOnward(s, e, p, d, p.stage.alert, p.stage.caseId);
      }
    }
  }

  /** Once processed, an event stays so, after the same pass; a case keeps its key and its priority never falls. */
  lemma {:induction false} NothingReverts(s: State, step: Step)
    requires Inv(s)
    ensures var t := Apply(s, step);
      && (forall e :: e in s.events && s.events[e].processed ==>
            e in t.events && t.events[e].processed && e in t.passes && t.passes[e] == s.passes[e])
      && (forall c :: c in s.cases ==>
            c in t.cases && t.cases[c].key == s.cases[c].key && Rank(t.cases[c].priority) >= Rank(s.cases[c].priority))
  {
    hide Inv, CaseWorkflow.Allowed, Held, Advance, Rank;
    forall e | e in s.events && s.events[e].processed
      ensures e !in s.processors && e in s.passes
    {
      ProcessedIsDone(s, e);
    }
    if step.Advances? && step.event in s.processors && step.event in s.events {
      AdvanceOnward(s, step.event, step.uuid);
    }
  }

  lemma {:induction false} ProcessedIsDone(s: State, e: string)
    requires Inv(s) && e in s.events && s.events[e].processed
    ensures e !in s.processors && e in s.passes
  {
    assert EventOk(s, e);
    assert e in s.processors ==> ProcessorOk(s, e, s.processors[e]);
  }

  /** An analyst's allowed step takes effect unless it reopens a case whose key another active case has. */
  lemma {:induction false} MovesByName(s: State, c: string, status: Status)
    requires c in s.cases && CaseWorkflow.Allowed(s.cases[c].status, status)
    ensures var t := Apply(s, Moves(c, status));
      if s.cases[c].status == CaseWorkflow.Closed &&
         exists d :: d in s.cases && s.cases[d].key == s.cases[c].key && s.cases[d].status != CaseWorkflow.Closed
      then t == s else t == s.(cases := s.cases[c := s.cases[c].(status := status)])
  {
    assert forall d, key :: d in s.cases ==>
      (Holds(s, d, key) <==> s.cases[d].key == key && s.cases[d].status != CaseWorkflow.Closed);
  }

  // ---------------------------------------------------------------- processing completes

  ghost function Continue(s: State, steps: seq<Step>): State {
    if steps == [] then s else Apply(Continue(s, steps[..|steps| - 1]), steps[|steps| - 1])
  }

  lemma {:induction false} ContinueSnoc(s: State, steps: seq<Step>, step: Step)
    ensures Continue(s, steps + [step]) == Apply(Continue(s, steps), step)
  {
    assert (steps + [step])[..|steps|] == steps;
  }

  /** No identifier of the pass belongs to an alert of another rule or event. */
  ghost predicate NoClash(s: State, e: string, found: seq<Detected>) {
    && (forall i :: 0 <= i < |found| && found[i].id in s.alerts ==> Occurs(s, found[i].id, found[i].rule, e))
    && (forall i, j :: 0 <= i < |found| && 0 <= j < |found| && found[i].id == found[j].id ==>
      found[i].rule == found[j].rule)
  }

  /** The processor of `e` is at alert `n` of the pass, and the tables allow it to go on. */
  ghost predicate Ready(s: State, e: string, found: seq<Detected>, n: nat, uuids: nat -> string) {
    && Inv(s) && e in s.events && e in s.processors && s.processors[e] == Processor(found, n, Inserting)
    && NoClash(s, e, found) && (forall k: nat :: k >= n ==> uuids(k) !in s.cases)
  }

  /** Only the stage of the processor changed. */
  ghost predicate Staged(s: State, t: State, e: string, stage: Stage) {
    e in s.processors && t == At(s, e, s.processors[e], stage)
  }

  lemma {:induction false} StepInserts(s: State, e: string, d: Detected, uuid: string)
    requires Inv(s) && e in s.processors && Current(s, e, s.processors[e], d) && s.processors[e].stage.Inserting?
    requires d.id in s.alerts ==> Occurs(s, d.id, d.rule, e)
    ensures var t := Apply(s, Advances(e, uuid));
      && Inv(t) && t.cases == s.cases && Current(t, e, t.processors[e], d) && t.processors[e].stage.Selecting?
      && t.processors[e] == s.processors[e].(stage := t.processors[e].stage) && Occurred(t, d.rule, e)
      && (t.alerts == s.alerts || t.alerts == s.alerts[d.id := Alert(d.rule, e, d.severity)])
  {
    AdvanceKeeps(s, e, uuid);
    hide Inv;
    var t := Apply(s, Advances(e, uuid));
    if d.id in s.alerts {
      assert Occurs(t, d.id, d.rule, e);
    } else if Occurred(s, d.rule, e) {
      var a :| a in s.alerts && Occurs(s, a, d.rule, e);
      assert Occurs(t, a, d.rule, e);
    } else {
      assert Occurs(t, d.id, d.rule, e);
    }
  }

  lemma {:induction false} StepSelects(s: State, e: string, d: Detected, uuid: string)
    requires Inv(s) && e in s.processors && Current(s, e, s.processors[e], d) && s.processors[e].stage.Selecting? &&
      Occurred(s, d.rule, e)
    ensures var t := Apply(s, Advances(e, uuid));
      Inv(t) && e in t.processors && t.processors[e].stage.Checking? && Staged(s, t, e, t.processors[e].stage)
  {
    AdvanceKeeps(s, e, uuid);
    hide Inv, Occurs;
  }

  /** The link is there already, or there is a case to open. */
  lemma {:induction false} StepChecks(s: State, e: string, d: Detected, uuid: string)
    requires Inv(s) && e in s.processors && Current(s, e, s.processors[e], d) && s.processors[e].stage.Checking?
    ensures var t := Apply(s, Advances(e, uuid));
      && Inv(t) && e in t.processors
      && (t == NextAlert(s, e, s.processors[e]) ||
        (t.processors[e].stage.Opening? && Staged(s, t, e, t.processors[e].stage)))
  {
    AdvanceKeeps(s, e, uuid);
    hide Inv, Linked;
  }

  lemma {:induction false} StepOpens(s: State, e: string, d: Detected, uuid: string)
    requires Inv(s) && e in s.processors && Current(s, e, s.processors[e], d) && s.processors[e].stage.Opening? &&
      uuid !in s.cases
    ensures var t := Apply(s, Advances(e, uuid));
      && Inv(t) && t.alerts == s.alerts && t.cases.Keys <= s.cases.Keys + {uuid}
      && Current(t, e, t.processors[e], d) && t.processors[e].stage.Finding?
      && t.processors[e] == s.processors[e].(stage := t.processors[e].stage)
      && Held(t, KeyOf(t.events[e].device, d))
  {
    AdvanceKeeps(s, e, uuid);
    hide Inv, KeyOf;
    var t := Apply(s, Advances(e, uuid));
    var key := KeyOf(s.events[e].device, d);
    if Held(s, key) {
      var c :| c in s.cases && Holds(s, c, key);
      assert Holds(t, c, key);
    } else {
      assert Holds(t, uuid, key);
    }
  }

  lemma {:induction false} StepFinds(s: State, e: string, d: Detected, uuid: string)
    requires Inv(s) && e in s.processors && Current(s, e, s.processors[e], d) && s.processors[e].stage.Finding?
    requires Held(s, KeyOf(s.events[e].device, d))
    ensures var t := Apply(s, Advances(e, uuid));
      && Inv(t) && e in t.processors && t.processors[e].stage.Linking? && Staged(s, t, e, t.processors[e].stage)
  {
    AdvanceKeeps(s, e, uuid);
    hide Inv, KeyOf, Holds;
  }

  lemma {:induction false} StepLinks(s: State, e: string, d: Detected, uuid: string)
    requires Inv(s) && e in s.processors && Current(s, e, s.processors[e], d) && s.processors[e].stage.Linking?
    ensures var t := Apply(s, Advances(e, uuid));
      && Inv(t) && t.alerts == s.alerts && t.cases.Keys == s.cases.Keys && e in t.events && e in t.processors
      && t.processors[e] == Processor(s.processors[e].found, s.processors[e].at + 1, Inserting)
  {
    AdvanceKeeps(s, e, uuid);
    LinkKeeps(s, e, s.processors[e], d);
    hide Inv, KeyOf;
  }

  /** Undisturbed, a processor gets one alert stored and linked and goes on to the next. */
  lemma {:induction false} OneAlertPasses(s: State, e: string, found: seq<Detected>, n: nat, uuids: nat -> string)
    returns (more: seq<Step>)
    requires Ready(s, e, found, n, uuids) && n < |found| && forall j: nat, k: nat :: uuids(j) == uuids(k) ==> j == k
    ensures Ready(Continue(s, more), e, found, n + 1, uuids)
  {
    hide Apply, Inv, Occurred, Occurs, KeyOf, Held;
    var d, adv := found[n], Advances(e, uuids(n));
    assert d.id in s.alerts ==> Occurs(s, d.id, d.rule, e);
    StepInserts(s, e, d, uuids(n));
    var s1 := Apply(s, adv);
    NoClashStays(s, s1, e, found, n);
    StepSelects(s1, e, d, uuids(n));
    var s2 := Apply(s1, adv);
    StepChecks(s2, e, d, uuids(n));
    var s3 := Apply(s2, adv);
    ContinueThree(s, adv);
    more := [] + [adv] + [adv] + [adv];
    if s3.processors[e].stage.Opening? && s3.processors[e].at == n {
      StepOpens(s3, e, d, uuids(n));
      var s4 := Apply(s3, adv);
      StepFinds(s4, e, d, uuids(n));
      var s5 := Apply(s4, adv);
      StepLinks(s5, e, d, uuids(n));
      var s6 := Apply(s5, adv);
      ContinueSnoc(s, more, adv);
      ContinueSnoc(s, more + [adv], adv);
      ContinueSnoc(s, more + [adv] + [adv], adv);
      more := more + [adv] + [adv] + [adv];
      SameAlerts(s1, s6, e, found);
    } else {
      SameAlerts(s1, s3, e, found);
    }
  }

  lemma {:induction false} ContinueThree(s: State, step: Step)
    ensures Continue(s, [] + [step] + [step] + [step]) == Apply(Apply(Apply(s, step), step), step)
  {
    hide Apply;
    ContinueSnoc(s, [], step);
    ContinueSnoc(s, [] + [step], step);
    ContinueSnoc(s, [] + [step] + [step], step);
  }

  lemma {:induction false} NoClashStays(s: State, t: State, e: string, found: seq<Detected>, n: nat)
    requires n < |found| && NoClash(s, e, found)
    requires t.alerts == s.alerts || t.alerts == s.alerts[found[n].id := Alert(found[n].rule, e, found[n].severity)]
    ensures NoClash(t, e, found)
  {
    forall i | 0 <= i < |found| && found[i].id in t.alerts ensures Occurs(t, found[i].id, found[i].rule, e) {
      assert found[i].id in s.alerts ==> Occurs(s, found[i].id, found[i].rule, e);
      assert found[i].id == found[n].id ==> found[i].rule == found[n].rule;
    }
  }

  lemma {:induction false} SameAlerts(s: State, t: State, e: string, found: seq<Detected>)
    requires NoClash(s, e, found) && t.alerts == s.alerts
    ensures NoClash(t, e, found)
  {
    assert forall a, r, x :: Occurs(s, a, r, x) <==> Occurs(t, a, r, x);
  }

  lemma {:induction false} ContinueOn(s: State, first: seq<Step>, more: seq<Step>)
    ensures Continue(s, first + more) == Continue(Continue(s, first), more)
  {
    hide Apply;
    if more == [] {
      assert first + more == first;
    } else {
      var n := |more| - 1;
      ContinueOn(s, first, more[..n]);
      assert first + more == (first + more[..n]) + [more[n]];
      ContinueSnoc(s, first + more[..n], more[n]);
    }
  }

  lemma {:induction false} AllAlertsPass(s: State, e: string, found: seq<Detected>, n: nat, uuids: nat -> string)
    returns (more: seq<Step>)
    requires Ready(s, e, found, n, uuids) && n <= |found| && forall j: nat, k: nat :: uuids(j) == uuids(k) ==> j == k
    ensures Ready(Continue(s, more), e, found, |found|, uuids)
    decreases |found| - n
  {
    hide Ready;
    more := [];
    if n < |found| {
      var first := OneAlertPasses(s, e, found, n, uuids);
      var rest := AllAlertsPass(Continue(s, first), e, found, n + 1, uuids);
      ContinueOn(s, first, rest);
      more := first + rest;
    }
  }

  /**
  Redelivery always helps: from every reachable state, a processor that begins on an unprocessed event and is
  left undisturbed marks it processed after its pass, with every alert of it stored and linked.
  */
  lemma {:induction false} ProcessingCompletes(s: State, e: string, found: seq<Detected>, uuids: nat -> string)
    returns (more: seq<Step>)
    requires Inv(s) && e in s.events && !s.events[e].processed && e !in s.processors && NoClash(s, e, found)
    requires (forall k: nat :: uuids(k) !in s.cases) && forall j: nat, k: nat :: uuids(j) == uuids(k) ==> j == k
    ensures var t := Continue(s, more);
      && Inv(t) && e in t.events && t.events[e].processed && e in t.passes && t.passes[e] == found
      && forall d :: d in found ==> Settled(t, d.rule, e)
  {
    var begins := Begins(e, found);
    BeginKeeps(s, e, found);
    var t := Apply(s, begins);
    SameAlerts(s, t, e, found);
    var rest := AllAlertsPass(t, e, found, 0, uuids);
    var u := Continue(t, rest);
    AdvanceKeeps(u, e, "");
    var done := Advances(e, "");
    ContinueSnoc(s, [], begins);
    ContinueOn(s, [] + [begins], rest);
    ContinueSnoc(s, [] + [begins] + rest, done);
    more := [] + [begins] + rest + [done];
    hide TablesOk, ProcessorOk, Settled;
    assert EventOk(Continue(s, more), e);
  }

  // ---------------------------------------------------------------- priorities and stored severities

  /** Every case has at least the priority of its linked alerts, as stored. */
  ghost predicate Covers(s: State) {
    forall l :: l in s.links ==>
      l.alertId in s.alerts && l.caseId in s.cases &&
        Rank(s.cases[l.caseId].priority) >= SeverityRank(s.alerts[l.alertId].severity)
  }

  /**
  A link keeps the cases at their alerts' priority exactly if the stored severity is at most the priority
  of the case or the severity found in this pass.
  */
  lemma {:induction false} LinkCovers(s: State, e: string, p: Processor, d: Detected)
    requires Inv(s) && Covers(s) && Current(s, e, p, d) && p.stage.Linking?
    ensures var (a, c) := (p.stage.alert, p.stage.caseId);
      && a in s.alerts && c in s.cases
      && (Covers(LinkAlert(s, e, p, d, a, c)) <==>
          (SeverityRank(s.alerts[a].severity) <= Rank(s.cases[c].priority) ||
            SeverityRank(s.alerts[a].severity) <= SeverityRank(d.severity)))
  {
    hide TablesOk, KeyOf, SettledUpTo, Linked, Rank, CasePriority;
    EventsOfProcessors(s, e);
    assert StageOk(s, e, d, KeyOf(s.events[e].device, d), p.stage);
    var l := Link(p.stage.caseId, p.stage.alert);
    assert l in LinkAlert(s, e, p, d, p.stage.alert, p.stage.caseId).links;
  }

  /** Every detection pass gives a rule and event the same severity. */
  predicate SteadyStep(step: Step, severity: (string, string) -> Severity) {
    step.Begins? ==> Steady(step.event, step.found, severity)
  }

  predicate Steady(e: string, found: seq<Detected>, severity: (string, string) -> Severity) {
    forall i :: 0 <= i < |found| ==> found[i].severity == severity(found[i].rule, e)
  }

  ghost predicate SteadyState(s: State, severity: (string, string) -> Severity) {
    && (forall a :: a in s.alerts ==> s.alerts[a].severity == severity(s.alerts[a].rule, s.alerts[a].event))
    && (forall e :: e in s.processors ==> Steady(e, s.processors[e].found, severity))
    && (forall l :: l in s.links && l in s.carried && l.alertId in s.alerts ==>
          s.carried[l].severity == severity(s.carried[l].rule, s.alerts[l.alertId].event))
  }

  lemma {:induction false} SteadyCovers(s: State, severity: (string, string) -> Severity)
    requires Inv(s) && SteadyState(s, severity)
    ensures Covers(s)
  {
    hide OneAlert, OneCase, OneActive, ProcessorOk, EventOk, KeyOf;
    forall l | l in s.links
      ensures l.alertId in s.alerts && l.caseId in s.cases &&
        Rank(s.cases[l.caseId].priority) >= SeverityRank(s.alerts[l.alertId].severity)
    {
      assert LinkOk(s, l);
    }
  }

  /** Most statements change neither alerts nor links. */
  lemma {:induction false} SteadyFrame(s: State, t: State, severity: (string, string) -> Severity)
    requires SteadyState(s, severity)
    requires t.alerts == s.alerts && t.links == s.links && t.carried == s.carried &&
      t.processors.Keys <= s.processors.Keys
    requires forall e :: e in t.processors ==> t.processors[e].found == s.processors[e].found
    ensures SteadyState(t, severity)
  {
  }

  lemma {:induction false} SteadyInsert(s: State, e: string, p: Processor, d: Detected,
      severity: (string, string) -> Severity)
    requires Inv(s) && SteadyState(s, severity) && Current(s, e, p, d)
    ensures SteadyState(InsertAlert(s, e, p, d), severity)
  {
    hide Inv, Occurred;
    assert Steady(e, p.found, severity);
    forall l | l in s.links ensures l.alertId in s.alerts && l in s.carried { LinkedAlerts(s, l); }
  }

  lemma {:induction false} SteadyLink(s: State, e: string, p: Processor, d: Detected,
      severity: (string, string) -> Severity)
    requires Inv(s) && SteadyState(s, severity) && Current(s, e, p, d) && p.stage.Linking? && p.stage.caseId in s.cases
    ensures SteadyState(LinkAlert(s, e, p, d, p.stage.alert, p.stage.caseId), severity)
  {
    hide TablesOk, KeyOf, Linked, SettledUpTo, EventOk, Rank, CasePriority;
    assert Steady(e, p.found, severity);
    EventsOfProcessors(s, e);
    assert StageOk(s, e, d, KeyOf(s.events[e].device, d), p.stage);
    forall l | l in s.links ensures l.alertId in s.alerts && l in s.carried { LinkedAlerts(s, l); }
  }

  lemma {:induction false} SteadyOpen(
      s: State, e: string, p: Processor, a: string, key: Key, found: Severity, uuid: string,
        severity: (string, string) -> Severity)
    requires SteadyState(s, severity) && e in s.processors && p == s.processors[e]
    ensures SteadyState(OpenCase(s, e, p, a, key, found, uuid), severity)
  {
    hide Held, SteadyState;
    SteadyFrame(s, OpenCase(s, e, p, a, key, found, uuid), severity);
  }

  lemma {:induction false} SteadyAdvance(s: State, e: string, uuid: string, severity: (string, string) -> Severity)
    requires Inv(s) && SteadyState(s, severity) && e in s.processors && e in s.events
    ensures SteadyState(Advance(s, e, uuid), severity)
  {
    hide Inv, SteadyState, KeyOf, Advance, InsertAlert, OpenCase, LinkAlert;
    AdvanceKinds(s, e, uuid);
    var p := s.processors[e];
    var t := Advance(s, e, uuid);
    if Quiet(s, t, e) {
      SteadyFrame(s, t, severity);
    } else {
      var d := p.found[p.at];
      match p.stage
      case Inserting => SteadyInsert(s, e, p, d, severity);
      case Opening(a) => SteadyOpen(s, e, p, a, KeyOf(s.events[e].device, d), d.severity, uuid, severity);
      case Linking(_, _) => SteadyLink(s, e, p, d, severity);
      case _ =>
    }
  }

  lemma {:induction false} LinkedAlerts(s: State, l: Link)
    requires Inv(s) && l in s.links
    ensures l.alertId in s.alerts && l in s.carried
  {
    assert LinkOk(s, l);
  }

  lemma {:induction false} SteadyKeeps(s: State, step: Step, severity: (string, string) -> Severity)
    requires Inv(s) && SteadyState(s, severity) && SteadyStep(step, severity)
    ensures SteadyState(Apply(s, step), severity)
  {
    hide Inv, Advance, Held, CaseWorkflow.Allowed;
    if step.Advances? && step.event in s.processors && step.event in s.events {
      SteadyAdvance(s, step.event, step.uuid, severity);
    }
  }

  /** If passes agree on severities, no case ever has a lower priority than an alert linked to it. */
  lemma {:induction false} PriorityCoversAlerts(steps: seq<Step>, severity: (string, string) -> Severity)
    requires forall i :: 0 <= i < |steps| ==> SteadyStep(steps[i], severity)
    ensures Covers(Run(steps)) && SteadyState(Run(steps), severity)
  {
    hide Inv, Apply, SteadyState, SteadyStep, Covers;
    RunKeepsInv(steps);
    if steps == [] {
      SteadyNothing(severity);
    } else {
      var n := |steps| - 1;
      forall i | 0 <= i < n ensures SteadyStep(steps[..n][i], severity) { assert steps[..n][i] == steps[i]; }
      PriorityCoversAlerts(steps[..n], severity);
      RunKeepsInv(steps[..n]);
      SteadyKeeps(Run(steps[..n]), steps[n], severity);
    }
    SteadyCovers(Run(steps), severity);
  }

  lemma {:induction false} SteadyNothing(severity: (string, string) -> Severity)
    ensures SteadyState(INITIAL, severity)
  {
  }

  /** The same by name: a case is at least as urgent as any alert linked to it. */
  lemma {:induction false} UrgencyByName(steps: seq<Step>, severity: (string, string) -> Severity, l: Link)
    requires forall i :: 0 <= i < |steps| ==> SteadyStep(steps[i], severity)
    requires l in Run(steps).links
    ensures var s := Run(steps);
      && l.alertId in s.alerts && l.caseId in s.cases
      && (s.alerts[l.alertId].severity == Critical ==> s.cases[l.caseId].priority == CriticalPriority)
      && (s.alerts[l.alertId].severity == High ==> s.cases[l.caseId].priority in {HighPriority, CriticalPriority})
      && (s.alerts[l.alertId].severity == Medium ==> s.cases[l.caseId].priority != LowPriority)
  {
    hide Run, SteadyState, SteadyStep;
    PriorityCoversAlerts(steps, severity);
  }

  /**
  In every run the case of a linked alert is one for the alert's rule, and for the device of its event or,
  without one, the actor that the alert named; it is at least as urgent as the alert found with the link.
  */
  lemma {:induction false} CasesByName(steps: seq<Step>, l: Link)
    requires l in Run(steps).links
    ensures var s := Run(steps);
      && l.alertId in s.alerts && l.caseId in s.cases && l in s.carried && s.alerts[l.alertId].event in s.events
      && s.cases[l.caseId].key.rule == s.alerts[l.alertId].rule
      && s.cases[l.caseId].key.entity ==
         (match s.events[s.alerts[l.alertId].event].device
          case Some(d) => if d == "" then Actor(s.carried[l].actor) else Device(d)
          case None => Actor(s.carried[l].actor))
      && (s.carried[l].severity == Critical ==> s.cases[l.caseId].priority == CriticalPriority)
      && (s.carried[l].severity == High ==> s.cases[l.caseId].priority in {HighPriority, CriticalPriority})
      && (s.carried[l].severity == Medium ==> s.cases[l.caseId].priority != LowPriority)
  {
    hide Run, OneCase, OneActive, Settled;
    EveryRun(steps);
    assert LinkOk(Run(steps), l);
  }

  /** A case that a first alert opens has just that alert's urgency, and raising never overshoots. */
  lemma {:induction false} PrioritiesByName(p: Priority, severity: Severity)
    ensures CasePriority(Critical) == CriticalPriority && CasePriority(High) == HighPriority
    ensures CasePriority(Medium) == MediumPriority
    ensures CasePriority(Low) == CasePriority(Informational) == LowPriority
    ensures Raise(p, CasePriority(severity)) in {p, CasePriority(severity)}
    ensures CriticalPriority in {p, CasePriority(severity)} ==> Raise(p, CasePriority(severity)) == CriticalPriority
    ensures LowPriority in {p, CasePriority(severity)} ==>
      Raise(p, CasePriority(severity)) == if p == LowPriority then CasePriority(severity) else p
  {
  }

  // ---------------------------------------------------------------- severities that change

  lemma {:induction false} RunSnoc(steps: seq<Step>, step: Step)
    ensures Run(steps + [step]) == Apply(Run(steps), step)
  {
    assert (steps + [step])[..|steps|] == steps;
  }

  /** One event without a device; its processor and the tables are given. */
  function Scene(alerts: map<string, Alert>, cases: map<string, Case>, processors: map<string, Processor>): State {
    State(map["e" := Event(None, false)], alerts, cases, {}, processors, map[], map[])
  }

  function Finding1(): Detected { Detected("a", "r", Critical, "x") }

  function Finding2(): Detected { Detected("a", "r", Low, "x") }

  function Stored(): map<string, Alert> { map["a" := Alert("r", "e", Critical)] }

  /** A first pass stores a critical alert and stops before linking it. */
  lemma {:induction false} FirstPass()
    ensures Run([Ingests("e", None), Begins("e", [Finding1()]), Advances("e", "u"), Crashes("e")]) ==
      Scene(Stored(), map[], map[])
  {
    var s1 := Apply(INITIAL, Ingests("e", None));
    assert s1 == Scene(map[], map[], map[]);
    var p := Processor([Finding1()], 0, Inserting);
    var s2 := Apply(s1, Begins("e", [Finding1()]));
    assert s2 == Scene(map[], map[], map["e" := p]);
    var s3 := Apply(s2, Advances("e", "u"));
    assert s3 == Scene(Stored(), map[], map["e" := p.(stage := Selecting(true))]);
    assert Apply(s3, Crashes("e")) == Scene(Stored(), map[], map[]);
    hide Apply;
    RunSnoc([], Ingests("e", None));
    RunSnoc([Ingests("e", None)], Begins("e", [Finding1()]));
    RunSnoc([Ingests("e", None), Begins("e", [Finding1()])], Advances("e", "u"));
    RunSnoc([Ingests("e", None), Begins("e", [Finding1()]), Advances("e", "u")], Crashes("e"));
    assert [] + [Ingests("e", None)] == [Ingests("e", None)];
    assert [Ingests("e", None)] + [Begins("e", [Finding1()])] == [Ingests("e", None), Begins("e", [Finding1()])];
    assert [Ingests("e", None), Begins("e", [Finding1()])] + [Advances("e", "u")]
        == [Ingests("e", None), Begins("e", [Finding1()]), Advances("e", "u")];
    assert [Ingests("e", None), Begins("e", [Finding1()]), Advances("e", "u")] + [Crashes("e")]
        == [Ingests("e", None), Begins("e", [Finding1()]), Advances("e", "u"), Crashes("e")];
  }

  function LowCase(): Case { Case(Key("r", Actor("x")), LowPriority, CaseWorkflow.Open) }

  /** A second pass on the same event finds the rule at low severity, and reaches the point of opening a case. */
  lemma {:induction false} SecondPassFinds(p: Processor)
    requires p == Processor([Finding2()], 0, Inserting)
    ensures var s := Apply(Scene(Stored(), map[], map[]), Begins("e", [Finding2()]));
      Apply(Apply(Apply(s, Advances("e", "u")), Advances("e", "u")), Advances("e", "u"))
        == Scene(Stored(), map[], map["e" := p.(stage := Opening("a"))])
  {
    var s := Apply(Scene(Stored(), map[], map[]), Begins("e", [Finding2()]));
    assert s == Scene(Stored(), map[], map["e" := p]);
    var s1 := Apply(s, Advances("e", "u"));
    assert s1 == Scene(Stored(), map[], map["e" := p.(stage := Selecting(false))]);
    assert Occurs(s1, "a", "r", "e");
    var s2 := Apply(s1, Advances("e", "u"));
    assert s2 == Scene(Stored(), map[], map["e" := p.(stage := Checking(false, "a"))]);
    assert !Linked(s2, "a");
  }

  lemma {:induction false} SecondPassLinks(p: Processor)
    requires p == Processor([Finding2()], 0, Opening("a"))
    ensures var s := Scene(Stored(), map[], map["e" := p]);
      var t := Apply(Apply(Apply(s, Advances("e", "c")), Advances("e", "u")), Advances("e", "u"));
      t.alerts == Stored() && t.cases == map["c" := LowCase()] && t.links == {Link("c", "a")}
  {
    var s := Scene(Stored(), map[], map["e" := p]);
    var s1 := Apply(s, Advances("e", "c"));
    assert s1 == Scene(Stored(), map["c" := LowCase()], map["e" := p.(stage := Finding("a"))]);
    assert Holds(s1, "c", Key("r", Actor("x")));
    var s2 := Apply(s1, Advances("e", "u"));
    assert s2 == Scene(Stored(), map["c" := LowCase()], map["e" := p.(stage := Linking("a", "c"))]);
  }

  /** If a rule's severity drops between two passes, a critical alert can end up in a case of low priority. */
  lemma {:induction false} DroppedSeverityIsNotCovered()
    ensures exists steps :: !Covers(Run(steps))
  {
    hide Run, Apply;
    var adv := Advances("e", "u");
    var first := [Ingests("e", None), Begins("e", [Finding1()]), adv, Crashes("e")];
    FirstPass();
    RunSnoc(first, Begins("e", [Finding2()]));
    var second := first + [Begins("e", [Finding2()])];
    RunThree(second, adv, adv, adv);
    SecondPassFinds(Processor([Finding2()], 0, Inserting));
    var third := second + [adv] + [adv] + [adv];
    RunThree(third, Advances("e", "c"), adv, adv);
    SecondPassLinks(Processor([Finding2()], 0, Opening("a")));
    var last := third + [Advances("e", "c")] + [adv] + [adv];
    assert Link("c", "a") in Run(last).links;
    assert !Covers(Run(last));
  }

  lemma {:induction false} RunThree(steps: seq<Step>, a: Step, b: Step, c: Step)
    ensures Run(steps + [a] + [b] + [c]) == Apply(Apply(Apply(Run(steps), a), b), c)
  {
    hide Apply;
    RunSnoc(steps, a);
    RunSnoc(steps + [a], b);
    RunSnoc(steps + [a] + [b], c);
  }
}
