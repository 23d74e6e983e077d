/**
The case workflow: `transitionCase` and `appendCaseDisposition` as interleaved database statements.

A transition reads the row, looks something up, and then updates the row if its status is still the one
it read; the update and its audit row are one batch.  Between these steps any other request may run, and
a request may vanish.  The log keeps the disposition rows and the audited status changes in the order in
which the database received them.
*/
module CaseWorkflow {
  import opened Results

  datatype Status = Open | Investigating | Contained | Closed

  datatype WorkflowError = CaseNotFound | InvalidTransition | DispositionRequired | ReopenConflict

  /** `ALLOWED_TRANSITIONS` */
  predicate Allowed(from: Status, to: Status) {
    match from
    case Open => to in {Investigating, Closed}
    case Investigating => to in {Contained, Closed}
    case Contained => to in {Investigating, Closed}
    case Closed => to == Open
  }

  /** The seven edges by name. */
  lemma {:induction false} EdgesByName(from: Status, to: Status)
    ensures Allowed(from, to) <==>
      (from, to) in {
        (Open, Investigating), (Open, Closed), (Investigating, Contained), (Investigating, Closed),
        (Contained, Investigating), (Contained, Closed), (Closed, Open)}
  {
  }

  datatype Case = Case(key: Option<string>, status: Status, requiredAfter: Option<nat>, closedAt: Option<nat>)

  type Cases = map<string, Case>

  datatype Entry =
    | Disposed(caseId: string, at: nat)
    | Moved(caseId: string, from: Status, to: Status, at: nat)

  /** A transition under way: what it read, and whether its lookup let it pass. */
  datatype Request = Request(caseId: string, requested: Status, seen: Case, cleared: bool)

  datatype State = State(cases: Cases, log: seq<Entry>, requests: map<nat, Request>)

  datatype Step =
    | Opens(newId: string, key: string)
    | Disposes(caseId: string, at: nat)
    | Reads(id: nat, target: string, requested: Status)
    | Looks(id: nat)
    | Writes(id: nat, now: nat)
    | Abandons(id: nat)

  // ---------------------------------------------------------------- the statements

  /** Another case that is not closed has the same semantic key: the unique index is violated. */
  predicate Rivalled(cases: Cases, c: string, key: Option<string>) {
    key.Some? && exists d :: d in cases && d != c && cases[d].key == key && cases[d].status != Closed
  }

  predicate Accounts(e: Entry, c: string, after: Option<nat>) {
    e.Disposed? && e.caseId == c && (after.None? || e.at >= after.value)
  }

  /** `SELECT disposition_id ... created_at >= ?` finds a row. */
  predicate HasDisposition(log: seq<Entry>, c: string, after: Option<nat>) {
    exists i :: 0 <= i < |log| && Accounts(log[i], c, after)
  }

  /** A disposition counts from the very time of the mark, for its own case only, and always without a mark. */
  lemma {:induction false} DispositionsByName(c: string, d: string, at: nat, mark: nat)
    ensures HasDisposition([Disposed(c, at)], c, Some(mark)) <==> at >= mark
    ensures HasDisposition([Disposed(c, at)], c, None)
    ensures c != d ==> !HasDisposition([Disposed(c, at)], d, None)
  {
    var log := [Disposed(c, at)];
    assert log[0] == Disposed(c, at);
    assert Accounts(log[0], c, None);
    assert at >= mark ==> Accounts(log[0], c, Some(mark));
  }

  /** The lookup between the read and the write, and the error when it fails. */
  function Lookup(s: State, q: Request): Option<WorkflowError> {
    if q.requested == Closed && !HasDisposition(s.log, q.caseId, q.seen.requiredAfter) then Some(DispositionRequired)
    else if q.seen.status == Closed && (q.seen.key.None? ||
      Rivalled(s.cases, q.caseId, q.seen.key)) then Some(ReopenConflict)
    else None
  }

  /** Whether the compare-and-swap takes effect: the status is unchanged and the unique index holds. */
  predicate Matches(s: State, q: Request) {
    q.caseId in s.cases && s.cases[q.caseId].status == q.seen.status &&
    !(q.seen.status == Closed && Rivalled(s.cases, q.caseId, s.cases[q.caseId].key))
  }

  function Written(row: Case, q: Request, now: nat): Case {
    Case(row.key, q.requested,
         if q.seen.status == Closed then Some(now) else q.seen.requiredAfter,
         if q.requested == Closed then Some(now) else None)
  }

  function Apply(s: State, step: Step): State {
    match step
    case Opens(c, key) =>
      if c in s.cases || Rivalled(s.cases, c, Some(key)) then s
      else s.(cases := s.cases[c := Case(Some(key), Open, None, None)])
    case Disposes(c, at) =>
      if c in s.cases then s.(log := s.log + [Disposed(c, at)]) else s
    case Reads(id, c, requested) =>
      if id in s.requests || c !in s.cases || !Allowed(s.cases[c].status, requested) then s
      else s.(requests := s.requests[id := Request(c, requested, s.cases[c], false)])
    case Looks(id) =>
      if id !in s.requests then s
      else if Lookup(s, s.requests[id]).Some? then s.(requests := s.requests - {id})
      else s.(requests := s.requests[id := s.requests[id].(cleared := true)])
    case Writes(id, now) =>
      if id !in s.requests || !s.requests[id].cleared then s
      else
        var q := s.requests[id];
        if !Matches(s, q) then s.(requests := s.requests - {id})
        else State(s.cases[q.caseId := Written(s.cases[q.caseId], q, now)],
                   s.log + [Moved(q.caseId, q.seen.status, q.requested, now)],
                   s.requests - {id})
    case Abandons(id) => s.(requests := s.requests - {id})
  }

  const INITIAL := State(map[], [], map[])

  function Run(steps: seq<Step>): State {
    if steps == [] then INITIAL else Apply(Run(steps[..|steps| - 1]), steps[|steps| - 1])
  }

  // ---------------------------------------------------------------- replaying the audit trail

  /** Follows the audited changes of one case from `Open`; `None` if they do not fit together. */
  function Replay(log: seq<Entry>, c: string): Option<Status> {
    if log == [] then Some(Open)
    else
      var before := Replay(log[..|log| - 1], c);
      var e := log[|log| - 1];
      if !e.Moved? || e.caseId != c || before.None? then before
      else if e.from == before.value && Allowed(e.from, e.to) then Some(e.to) else None
  }

  lemma {:induction false} ReplaySnoc(log: seq<Entry>, e: Entry, c: string)
    ensures Replay(log + [e], c) ==
      var before := Replay(log, c);
      if !e.Moved? || e.caseId != c || before.None? then before
      else if e.from == before.value && Allowed(e.from, e.to) then Some(e.to) else None
  {
    assert (log + [e])[..|log|] == log;
  }

  predicate Active(row: Case) { row.status != Closed && row.key.Some? }

  predicate OneActive(cases: Cases) {
    forall c, d :: c in cases && d in cases && Active(cases[c]) && Active(cases[d]) && cases[c].key == cases[d].key ==>
      c == d
  }

  ghost predicate Inv(s: State) {
    && (forall c :: c in s.cases ==> Replay(s.log, c) == Some(s.cases[c].status))
    && (forall c :: c in s.cases ==> (s.cases[c].closedAt.Some? <==> s.cases[c].status == Closed))
    && (forall c :: c !in s.cases ==> Replay(s.log, c) == Some(Open))
    && (forall id :: id in s.requests ==> Allowed(s.requests[id].seen.status, s.requests[id].requested))
    && OneActive(s.cases)
  }

  lemma {:induction false} WriteKeeps(s: State, id: nat, now: nat)
    requires Inv(s)
    ensures Inv(Apply(s, Writes(id, now)))
  {
    if id in s.requests && s.requests[id].cleared && Matches(s, s.requests[id]) {
      var q := s.requests[id];
      var e := Moved(q.caseId, q.seen.status, q.requested, now);
      forall c ensures Replay(s.log + [e], c) == (if c == q.caseId then Some(q.requested) else Replay(s.log, c)) {
        ReplaySnoc(s.log, e, c);
      }
    }
  }

  lemma {:induction false} KeepsInv(s: State, step: Step)
    requires Inv(s)
    ensures Inv(Apply(s, step))
  {
    match step
    case Writes(id, now) => WriteKeeps(s, id, now);
    case Disposes(c, at) =>
      forall d ensures Replay(s.log + [Disposed(c, at)], d) == Replay(s.log, d) {
        ReplaySnoc(s.log, Disposed(c, at), d);
      }
    case Opens(c, key) =>
      hide Replay;
    case Reads(id, c, requested) =>
    case Looks(id) => hide Lookup;
    case Abandons(id) =>
  }

  /**
  However the statements of requests interleave: replaying the audited changes of a case from open gives
  its current status along allowed edges, a case is marked closed at some time exactly while it is closed,
  and at most one case per semantic key is not closed.
  */
  lemma {:induction false} AuditReplaysToStatus(steps: seq<Step>)
    ensures forall i :: 0 <= i < |Run(steps).log| && Run(steps).log[i].Moved? ==>
      (Run(steps).log[i].from, Run(steps).log[i].to) in {
        (Open, Investigating), (Open, Closed), (Investigating, Contained), (Investigating, Closed),
        (Contained, Investigating), (Contained, Closed), (Closed, Open)}
    ensures var s := Run(steps);
      && (forall c :: c in s.cases ==> Replay(s.log, c) == Some(s.cases[c].status))
      && (forall c :: c in s.cases ==> (s.cases[c].closedAt.Some? <==> s.cases[c].status == Closed))
      && OneActive(s.cases)
  {
    RunKeepsInv(steps);
    var log := Run(steps).log;
    forall i | 0 <= i < |log| && log[i].Moved?
      ensures (log[i].from, log[i].to) in {
        (Open, Investigating), (Open, Closed), (Investigating, Contained), (Investigating, Closed),
        (Contained, Investigating), (Contained, Closed), (Closed, Open)}
    {
      ReplayUsesEdges(log, i);
      EdgesByName(log[i].from, log[i].to);
    }
  }

  lemma {:induction false} ReplayUsesEdges(log: seq<Entry>, i: nat)
    requires i < |log| && log[i].Moved? && Replay(log, log[i].caseId).Some?
    ensures Allowed(log[i].from, log[i].to)
  {
    if i < |log| - 1 {
      ReplayUsesEdges(log[..|log| - 1], i);
    }
  }

  lemma {:induction false} RunKeepsInv(steps: seq<Step>)
    ensures Inv(Run(steps))
  {
    if steps != [] {
      RunKeepsInv(steps[..|steps| - 1]);
      KeepsInv(Run(steps[..|steps| - 1]), steps[|steps| - 1]);
    }
  }

  // ---------------------------------------------------------------- dispositions before closing

  predicate Reopens(e: Entry, c: string) { e.Moved? && e.caseId == c && e.from == Closed }

  /** Before position `n` a disposition was recorded that no reopening has overtaken. */
  ghost predicate FreshAt(log: seq<Entry>, n: nat, c: string)
    requires n <= |log|
  {
    exists j :: 0 <= j < n && Accounts(log[j], c, None) && forall k :: j < k < n ==> !Reopens(log[k], c)
  }

  /** Every close in the log has a disposition recorded since the last reopening. */
  ghost predicate ClosesAreFresh(log: seq<Entry>) {
    forall n :: 0 <= n < |log| && log[n].Moved? && log[n].to == Closed ==> FreshAt(log, n, log[n].caseId)
  }

  predicate Ordered(log: seq<Entry>) { forall i, j :: 0 <= i < j < |log| ==> log[i].at < log[j].at }

  predicate Earlier(log: seq<Entry>, now: nat) { forall i :: 0 <= i < |log| ==> log[i].at < now }

  /** `after` is the time of the last reopening of the case, if there was one. */
  ghost predicate Remembers(log: seq<Entry>, c: string, after: Option<nat>) {
    match after
    case None => forall k :: 0 <= k < |log| ==> !Reopens(log[k], c)
    case Some(t) => exists i :: 0 <= i < |log| && IsLastReopening(log, c, t, i)
  }

  ghost predicate IsLastReopening(log: seq<Entry>, c: string, t: nat, i: nat)
    requires i < |log|
  {
    Reopens(log[i], c) && log[i].at == t && forall k :: i < k < |log| ==> !Reopens(log[k], c)
  }

  /** The time of the last reopening, from the audited changes alone. */
  function LastReopening(log: seq<Entry>, c: string): Option<nat> {
    if log == [] then None
    else if Reopens(log[|log| - 1], c) then Some(log[|log| - 1].at)
    else LastReopening(log[..|log| - 1], c)
  }

  /** There is exactly one mark that a row can rightly carry. */
  lemma {:induction false} OneMark(log: seq<Entry>, c: string, after: Option<nat>)
    ensures Remembers(log, c, after) <==> after == LastReopening(log, c)
  {
    if log != [] {
      var n := |log| - 1;
      var before, e := log[..n], log[n];
      assert log == before + [e];
      OneMark(before, c, LastReopening(before, c));
      if Reopens(e, c) {
        RemembersReopening(before, e, c);
      } else {
        RemembersStays(before, e, c, LastReopening(before, c));
      }
    }
    SameMark(log, c, after, LastReopening(log, c));
  }

  lemma {:induction false} SameMark(log: seq<Entry>, c: string, after: Option<nat>, other: Option<nat>)
    requires Remembers(log, c, other)
    ensures Remembers(log, c, after) ==> after == other
  {
    if Remembers(log, c, after) && after.Some? && other.Some? {
      var i :| 0 <= i < |log| && IsLastReopening(log, c, after.value, i);
      var j :| 0 <= j < |log| && IsLastReopening(log, c, other.value, j);
      assert i == j;
    }
  }

  /** The comparison of timestamps finds a disposition exactly if one was recorded since the last reopening. */
  lemma {:induction false} TimestampsTellFreshness(log: seq<Entry>, c: string, after: Option<nat>)
    requires Ordered(log) && Remembers(log, c, after)
    ensures HasDisposition(log, c, after) <==> FreshAt(log, |log|, c)
  {
    if HasDisposition(log, c, after) {
      var j :| 0 <= j < |log| && Accounts(log[j], c, after);
      assert Accounts(log[j], c, None);
      if after.Some? {
        var i :| 0 <= i < |log| && IsLastReopening(log, c, after.value, i);
        assert i < j;
      }
    }
    if FreshAt(log, |log|, c) {
      var j :| 0 <= j < |log| && Accounts(log[j], c, None) && forall k :: j < k < |log| ==> !Reopens(log[k], c);
      if after.Some? {
        var i :| 0 <= i < |log| && IsLastReopening(log, c, after.value, i);
        assert i < j;
      }
      assert Accounts(log[j], c, after);
    }
  }

  /** The write takes effect. */
  predicate Effective(s: State, id: nat) { id in s.requests && s.requests[id].cleared && Matches(s, s.requests[id]) }

  /** The write does not put back an old mark: it sets a new one, or the one it read is still in the row. */
  predicate Current(s: State, q: Request)
    requires q.caseId in s.cases
  {
    q.seen.status == Closed || q.seen.requiredAfter == s.cases[q.caseId].requiredAfter
  }

  /** The entries of the log carry increasing times. */
  predicate Timely(s: State, step: Step) {
    match step
    case Disposes(c, at) => Earlier(s.log, at)
    case Writes(id, now) => Earlier(s.log, now)
    case _ => true
  }

  predicate Undisturbed(s: State, step: Step) {
    Timely(s, step) && (step.Writes? && Effective(s, step.id) ==> Current(s, s.requests[step.id]))
  }

  ghost predicate FreshInv(s: State) {
    && Ordered(s.log) && ClosesAreFresh(s.log)
    && (forall c :: c in s.cases ==> Remembers(s.log, c, s.cases[c].requiredAfter))
    && (forall i :: 0 <= i < |s.log| ==> s.log[i].caseId in s.cases)
    && (forall id :: id in s.requests ==> s.requests[id].caseId in s.cases)
    && (forall id :: id in s.requests ==> Passed(s.log, s.requests[id]))
  }

  /** A cleared request to close found its disposition. */
  ghost predicate Passed(log: seq<Entry>, q: Request) {
    q.cleared && q.requested == Closed ==> HasDisposition(log, q.caseId, q.seen.requiredAfter)
  }

  lemma {:induction false} PassedStays(log: seq<Entry>, e: Entry, q: Request)
    requires Passed(log, q)
    ensures Passed(log + [e], q)
  {
    if q.cleared && q.requested == Closed {
      var i :| 0 <= i < |log| && Accounts(log[i], q.caseId, q.seen.requiredAfter);
      assert Accounts((log + [e])[i], q.caseId, q.seen.requiredAfter);
    }
  }

  lemma {:induction false} RemembersStays(log: seq<Entry>, e: Entry, c: string, after: Option<nat>)
    requires Remembers(log, c, after) && !Reopens(e, c)
    ensures Remembers(log + [e], c, after)
  {
    if after.Some? {
      var i :| 0 <= i < |log| && IsLastReopening(log, c, after.value, i);
      assert IsLastReopening(log + [e], c, after.value, i);
    }
  }

  lemma {:induction false} RemembersReopening(log: seq<Entry>, e: Entry, c: string)
    requires Reopens(e, c)
    ensures Remembers(log + [e], c, Some(e.at))
  {
    assert IsLastReopening(log + [e], c, e.at, |log|);
  }

  lemma {:induction false} FreshAtStays(log: seq<Entry>, e: Entry, n: nat, c: string)
    requires n <= |log|
    ensures FreshAt(log + [e], n, c) <==> FreshAt(log, n, c)
  {
    var more := log + [e];
    assert forall i :: 0 <= i < n ==> more[i] == log[i];
    if FreshAt(log, n, c) {
      var j :| 0 <= j < n && Accounts(log[j], c, None) && forall k :: j < k < n ==> !Reopens(log[k], c);
      assert Accounts(more[j], c, None) && forall k :: j < k < n ==> !Reopens(more[k], c);
    }
    if FreshAt(more, n, c) {
      var j :| 0 <= j < n && Accounts(more[j], c, None) && forall k :: j < k < n ==> !Reopens(more[k], c);
      assert Accounts(log[j], c, None);
      assert forall k :: j < k < n ==> !Reopens(log[k], c) by {
        forall k | j < k < n ensures !Reopens(log[k], c) { assert !Reopens(more[k], c); }
      }
    }
  }

  lemma {:induction false} ClosesSnoc(log: seq<Entry>, e: Entry)
    requires ClosesAreFresh(log) && (e.Moved? && e.to == Closed ==> FreshAt(log, |log|, e.caseId))
    ensures ClosesAreFresh(log + [e])
  {
    hide FreshAt;
    var more := log + [e];
    forall n | 0 <= n < |more| && more[n].Moved? && more[n].to == Closed ensures FreshAt(more, n, more[n].caseId) {
      FreshAtStays(log, e, n, more[n].caseId);
    }
  }

  lemma {:induction false} DisposeKeepsFresh(s: State, c: string, at: nat)
    requires FreshInv(s) && Undisturbed(s, Disposes(c, at))
    ensures FreshInv(Apply(s, Disposes(c, at)))
  {
    hide Remembers, Passed, ClosesAreFresh;
    var e := Disposed(c, at);
    ClosesSnoc(s.log, e);
    forall d | d in s.cases ensures Remembers(s.log + [e], d, s.cases[d].requiredAfter) {
      RemembersStays(s.log, e, d, s.cases[d].requiredAfter);
    }
    forall id | id in s.requests ensures Passed(s.log + [e], s.requests[id]) {
      PassedStays(s.log, e, s.requests[id]);
    }
  }

  lemma {:induction false} WriteKeepsFresh(s: State, id: nat, now: nat)
    requires Inv(s) && FreshInv(s) && Undisturbed(s, Writes(id, now))
    ensures FreshInv(Apply(s, Writes(id, now)))
  {
    hide Remembers, ClosesAreFresh, HasDisposition, FreshAt, Replay, OneActive, Rivalled;
    if id in s.requests && s.requests[id].cleared && Matches(s, s.requests[id]) {
      var q := s.requests[id];
      var c := q.caseId;
      var e := Moved(c, q.seen.status, q.requested, now);
      var t := Apply(s, Writes(id, now));
      if q.requested == Closed {
        assert Passed(s.log, q);
        TimestampsTellFreshness(s.log, c, q.seen.requiredAfter);
      }
      ClosesSnoc(s.log, e);
      forall d | d in t.cases ensures Remembers(t.log, d, t.cases[d].requiredAfter) {
        if d == c && q.seen.status == Closed {
          RemembersReopening(s.log, e, c);
        } else {
          RemembersStays(s.log, e, d, s.cases[d].requiredAfter);
        }
      }
      forall r | r in t.requests ensures Passed(t.log, t.requests[r]) {
        PassedStays(s.log, e, s.requests[r]);
      }
    }
  }

  lemma {:induction false} OpenKeepsFresh(s: State, c: string, key: string)
    requires FreshInv(s)
    ensures FreshInv(Apply(s, Opens(c, key)))
  {
    hide ClosesAreFresh, Passed, Rivalled;
  }

  lemma {:induction false} RequestKeepsFresh(s: State, step: Step)
    requires FreshInv(s) && (step.Reads? || step.Looks? || step.Abandons?)
    ensures FreshInv(Apply(s, step))
  {
    hide ClosesAreFresh, Remembers, Rivalled, HasDisposition, Ordered;
  }

  lemma {:induction false} KeepsFresh(s: State, step: Step)
    requires Inv(s) && FreshInv(s) && Undisturbed(s, step)
    ensures FreshInv(Apply(s, step))
  {
    hide FreshInv, Inv, Undisturbed, Apply;
    match step
    case Opens(c, key) => OpenKeepsFresh(s, c, key);
    case Disposes(c, at) => DisposeKeepsFresh(s, c, at);
    case Writes(id, now) => WriteKeepsFresh(s, id, now);
    case _ => RequestKeepsFresh(s, step);
  }

  /**
  In every state, whatever marks its rows carry: a close that takes effect is fresh exactly if there is a
  disposition since the last reopening that the audit trail shows.
  */
  lemma {:induction false} CloseIsFreshExactly(s: State, id: nat, now: nat)
    requires Ordered(s.log) && Effective(s, id) && s.requests[id].requested == Closed
    ensures var c := s.requests[id].caseId;
      ClosesAreFresh(Apply(s, Writes(id, now)).log) <==>
      ClosesAreFresh(s.log) && HasDisposition(s.log, c, LastReopening(s.log, c))
  {
    hide FreshAt, HasDisposition, Remembers, Rivalled, LastReopening;
    var q := s.requests[id];
    var c := q.caseId;
    var e := Moved(c, q.seen.status, q.requested, now);
    OneMark(s.log, c, LastReopening(s.log, c));
    TimestampsTellFreshness(s.log, c, LastReopening(s.log, c));
    ClosesExactly(s.log, e);
    assert Apply(s, Writes(id, now)).log == s.log + [e];
  }

  lemma {:induction false} ClosesExactly(log: seq<Entry>, e: Entry)
    requires e.Moved? && e.to == Closed
    ensures ClosesAreFresh(log + [e]) <==> ClosesAreFresh(log) && FreshAt(log, |log|, e.caseId)
  {
    hide FreshAt;
    var more := log + [e];
    forall n, c | 0 <= n <= |log| ensures FreshAt(more, n, c) <==> FreshAt(log, n, c) { FreshAtStays(log, e, n, c); }
    assert more[|log|] == e;
    assert forall n :: 0 <= n < |log| ==> more[n] == log[n];
    if ClosesAreFresh(log) && FreshAt(log, |log|, e.caseId) {
      ClosesSnoc(log, e);
    }
  }

  /**
  From a state in which all marks are right, a write that takes effect keeps them right, and every close
  fresh, exactly if it does not put back an old mark.
  */
  lemma {:induction false} WriteIsFreshExactly(s: State, id: nat, now: nat)
    requires Inv(s) && FreshInv(s) && Effective(s, id) && Earlier(s.log, now)
    ensures FreshInv(Apply(s, Writes(id, now))) <==> Current(s, s.requests[id])
  {
    hide Inv, ClosesAreFresh, Passed, Remembers, Rivalled, LastReopening, Ordered, Earlier;
    var q := s.requests[id];
    var c := q.caseId;
    if Current(s, q) {
      WriteKeepsFresh(s, id, now);
    } else {
      var e := Moved(c, q.seen.status, q.requested, now);
      var t := Apply(s, Writes(id, now));
      assert t.log == s.log + [e] && t.cases[c].requiredAfter == q.seen.requiredAfter;
      RemembersStays(s.log, e, c, s.cases[c].requiredAfter);
      OneMark(t.log, c, s.cases[c].requiredAfter);
      OneMark(t.log, c, q.seen.requiredAfter);
    }
  }

  ghost predicate UndisturbedRun(steps: seq<Step>) {
    steps == [] || (UndisturbedRun(steps[..|steps| - 1]) && Undisturbed(Run(steps[..|steps| - 1]), steps[|steps| - 1]))
  }

  /**
  With strictly increasing times, and whenever no write that takes effect puts back an old mark (in
  particular when transitions are atomic), each close has a disposition recorded since the last reopening.
  */
  lemma {:induction false} ClosesHaveDispositions(steps: seq<Step>)
    requires UndisturbedRun(steps)
    ensures ClosesAreFresh(Run(steps).log) && FreshInv(Run(steps))
  {
    hide Apply, Undisturbed, Inv;
    if steps == [] {
      NothingIsFresh();
    } else {
      var before := steps[..|steps| - 1];
      ClosesHaveDispositions(before);
      RunKeepsInv(before);
      KeepsFresh(Run(before), steps[|steps| - 1]);
    }
  }

  lemma {:induction false} NothingIsFresh() ensures FreshInv(INITIAL) {}

  // ---------------------------------------------------------------- a stale close under interleaving

  lemma {:induction false} RunSnoc(steps: seq<Step>, step: Step)
    ensures Run(steps + [step]) == Apply(Run(steps), step)
  {
    assert (steps + [step])[..|steps|] == steps;
  }

  lemma {:induction false} RunThree(steps: seq<Step>, a: Step, b: Step, c: Step)
    ensures Run(steps + [a, b, c]) == Apply(Apply(Apply(Run(steps), a), b), c)
  {
    hide Apply;
    RunSnoc(steps, a);
    RunSnoc(steps + [a], b);
    RunSnoc(steps + [a] + [b], c);
    assert steps + [a, b, c] == steps + [a] + [b] + [c];
  }

  /** An open case with one disposition, of which a request has just cleared its lookup. */
  function Waiting(to: Status): State {
    var row := Case(Some("k"), Open, None, None);
    State(map["c" := row], [Disposed("c", 1)], map[0 := Request("c", to, row, true)])
  }

  lemma {:induction false} WaitingSteps(to: Status)
    requires to == Closed || to == Investigating
    ensures Apply(Apply(Apply(Apply(INITIAL, Opens("c", "k")), Disposes("c", 1)), Reads(0, "c", to)), Looks(0)) ==
      Waiting(to)
  {
    var s2 := Apply(Apply(INITIAL, Opens("c", "k")), Disposes("c", 1));
    var row := Case(Some("k"), Open, None, None);
    assert s2 == State(map["c" := row], [Disposed("c", 1)], map[]) by { DisposedCase(); }
    hide HasDisposition, Rivalled;
    var s3 := Apply(s2, Reads(0, "c", to));
    assert s3 == s2.(requests := map[0 := Request("c", to, row, false)]);
    DispositionsByName("c", "c", 1, 0);
  }

  lemma {:induction false} DisposedCase()
    ensures Apply(Apply(INITIAL, Opens("c", "k")), Disposes("c", 1)) ==
      State(map["c" := Case(Some("k"), Open, None, None)], [Disposed("c", 1)], map[])
  {
    var s1 := Apply(INITIAL, Opens("c", "k"));
    assert s1 == State(map["c" := Case(Some("k"), Open, None, None)], [], map[]);
    assert [] + [Disposed("c", 1)] == [Disposed("c", 1)];
  }

  lemma {:induction false} WaitingIsReached(to: Status)
    requires to == Closed || to == Investigating
    ensures Run([] + [Opens("c", "k")] + [Disposes("c", 1), Reads(0, "c", to), Looks(0)]) == Waiting(to)
  {
    hide Apply;
    RunSnoc([], Opens("c", "k"));
    RunThree([] + [Opens("c", "k")], Disposes("c", 1), Reads(0, "c", to), Looks(0));
    WaitingSteps(to);
  }

  lemma {:induction false} OvertakenClose(to: Status)
    ensures var s := Apply(Apply(Apply(Waiting(to), Reads(1, "c", Closed)), Looks(1)), Writes(1, 2));
      && s.cases == map["c" := Case(Some("k"), Closed, None, Some(2))]
      && s.log == [Disposed("c", 1), Moved("c", Open, Closed, 2)]
      && s.requests == Waiting(to).requests
  {
    var s := Waiting(to);
    var row := s.cases["c"];
    var s1 := Apply(s, Reads(1, "c", Closed));
    assert s1.requests[1] == Request("c", Closed, row, false);
    assert Accounts(s1.log[0], "c", None);
    var s2 := Apply(s1, Looks(1));
    assert s2.requests[1] == Request("c", Closed, row, true);
  }

  lemma {:induction false} OvertakenReopening(s: State, to: Status)
    requires s.cases == map["c" := Case(Some("k"), Closed, None, Some(2))]
    requires s.requests == Waiting(to).requests
    ensures var t := Apply(Apply(Apply(s, Reads(2, "c", Open)), Looks(2)), Writes(2, 3));
      t == State(map["c" := Case(Some("k"), Open, Some(3), None)], s.log + [Moved("c", Closed, Open, 3)], s.requests)
  {
    var s1 := Apply(s, Reads(2, "c", Open));
    assert s1.requests[2] == Request("c", Open, s.cases["c"], false);
    var s2 := Apply(s1, Looks(2));
    assert s2.requests[2] == Request("c", Open, s.cases["c"], true);
  }

  /** The case was closed and reopened while request 0 waited for its write. */
  lemma {:induction false} ReopenedMeanwhile(to: Status) returns (steps: seq<Step>)
    requires to == Closed || to == Investigating
    ensures Run(steps) == State(map["c" := Case(Some("k"), Open, Some(3), None)],
      [Disposed("c", 1), Moved("c", Open, Closed, 2), Moved("c", Closed, Open, 3)], Waiting(to).requests)
  {
    hide Run, Apply;
    var first := [] + [Opens("c", "k")] + [Disposes("c", 1), Reads(0, "c", to), Looks(0)];
    WaitingIsReached(to);
    RunThree(first, Reads(1, "c", Closed), Looks(1), Writes(1, 2));
    OvertakenClose(to);
    var second := first + [Reads(1, "c", Closed), Looks(1), Writes(1, 2)];
    RunThree(second, Reads(2, "c", Open), Looks(2), Writes(2, 3));
    OvertakenReopening(Run(second), to);
    steps := second + [Reads(2, "c", Open), Looks(2), Writes(2, 3)];
    assert Run(second).log + [Moved("c", Closed, Open, 3)]
        == [Disposed("c", 1), Moved("c", Open, Closed, 2), Moved("c", Closed, Open, 3)];
  }

  /**
  The update compares the status only.  A close that cleared its lookup survives another close and a
  reopening in between, and then closes the case without a disposition since that reopening.
  */
  lemma {:induction false} SplitCloseCanBeStale()
    ensures exists steps :: Ordered(Run(steps).log) && !ClosesAreFresh(Run(steps).log)
  {
    hide Run, Apply, Ordered, ClosesAreFresh;
    var steps := ReopenedMeanwhile(Closed);
    RunSnoc(steps, Writes(0, 4));
    StaleWrite(Run(steps));
  }

  lemma {:induction false} StaleWrite(s: State)
    requires s.cases == map["c" := Case(Some("k"), Open, Some(3), None)]
    requires s.log == [Disposed("c", 1), Moved("c", Open, Closed, 2), Moved("c", Closed, Open, 3)]
    requires s.requests == Waiting(Closed).requests
    ensures Ordered(Apply(s, Writes(0, 4)).log) && !ClosesAreFresh(Apply(s, Writes(0, 4)).log)
  {
    var log := Apply(s, Writes(0, 4)).log;
    assert log == s.log + [Moved("c", Open, Closed, 4)];
    NotFresh(log, 3);
  }

  /** The only disposition came before a reopening. */
  lemma {:induction false} NotFresh(log: seq<Entry>, n: nat)
    requires 3 <= n < |log| && Reopens(log[2], "c") && log[n].Moved? && log[n].caseId == "c" && log[n].to == Closed
    requires forall j :: 2 <= j < n ==> log[j].Moved?
    ensures !ClosesAreFresh(log)
  {
    assert !FreshAt(log, n, "c");
    assert !FreshAt(log, n, log[n].caseId);
  }

  /**
  The update also writes back the mark that was read.  A delayed step to investigating survives a close and
  a reopening and erases the mark of that reopening; after it, even a close that finds the row exactly as
  it read it needs no new disposition.
  */
  lemma {:induction false} DelayedMoveErasesTheMark()
    ensures exists steps ::
      var closing := [Reads(3, "c", Closed), Looks(3), Writes(3, 5)];
      ClosesAreFresh(Run(steps).log) && Ordered(Run(steps + closing).log) && !ClosesAreFresh(Run(steps + closing).log)
  {
    hide Run, Apply, Ordered, ClosesAreFresh;
    var before := ReopenedMeanwhile(Investigating);
    var steps := before + [Writes(0, 4)];
    RunSnoc(before, Writes(0, 4));
    ErasingWrite(Run(before));
    RunThree(steps, Reads(3, "c", Closed), Looks(3), Writes(3, 5));
    CloseAfterErasing(Run(steps));
  }

  lemma {:induction false} ErasingWrite(s: State)
    requires s.cases == map["c" := Case(Some("k"), Open, Some(3), None)]
    requires s.log == [Disposed("c", 1), Moved("c", Open, Closed, 2), Moved("c", Closed, Open, 3)]
    requires s.requests == Waiting(Investigating).requests
    ensures var t := Apply(s, Writes(0, 4));
      && t.cases == map["c" := Case(Some("k"), Investigating, None, None)] && t.requests == map[]
      && t.log == s.log + [Moved("c", Open, Investigating, 4)]
      && ClosesAreFresh(t.log)
  {
    var t := Apply(s, Writes(0, 4));
    assert t.log[0] == Disposed("c", 1) && t.log[1].to == Closed;
    assert Accounts(t.log[0], "c", None) && FreshAt(t.log, 1, "c");
  }

  lemma {:induction false} CloseAfterErasing(s: State)
    requires s.cases == map["c" := Case(Some("k"), Investigating, None, None)] && s.requests == map[]
    requires s.log == [Disposed("c", 1), Moved("c", Open, Closed, 2), Moved("c", Closed, Open, 3),
      Moved("c", Open, Investigating, 4)]
    ensures var t := Apply(Apply(Apply(s, Reads(3, "c", Closed)), Looks(3)), Writes(3, 5));
      Ordered(t.log) && !ClosesAreFresh(t.log)
  {
    var row := s.cases["c"];
    var s1 := Apply(s, Reads(3, "c", Closed));
    assert s1.requests[3] == Request("c", Closed, row, false);
    assert Accounts(s1.log[0], "c", None);
    var s2 := Apply(s1, Looks(3));
    assert s2.requests[3] == Request("c", Closed, row, true);
    var t := Apply(s2, Writes(3, 5));
    assert t.log == s.log + [Moved("c", Investigating, Closed, 5)];
    NotFresh(t.log, 4);
  }

  // ---------------------------------------------------------------- atomic operations

  /** The operations run one at a time, with a clock that moves at every one of them. */
  class CaseDesk {
    var cases: Cases
    var log: seq<Entry>
    var clock: nat

    ghost function Value(): State
      reads this
    {
      State(cases, log, map[])
    }

    ghost predicate Valid()
      reads this
    {
      Inv(Value()) && FreshInv(Value()) && Earlier(log, clock)
    }

    constructor ()
      ensures Valid() && Value() == INITIAL
    {
      cases, log, clock := map[], [], 0;
      new;
      RunKeepsInv([]);
      NothingIsFresh();
    }

    /** `appendCaseDisposition` */
    method AppendDisposition(c: string) returns (r: Option<WorkflowError>)
      requires Valid()
      modifies this
      ensures Valid()
      ensures r == if c in old(cases) then None else Some(CaseNotFound)
      ensures Value() == Apply(old(Value()), Disposes(c, old(clock)))
    {
      hide Inv, FreshInv;
      if c !in cases {
        return Some(CaseNotFound);
      }
      KeepsInv(Value(), Disposes(c, clock));
      KeepsFresh(Value(), Disposes(c, clock));
      log := log + [Disposed(c, clock)];
      clock := clock + 1;
      return None;
    }

    /**
    `transitionCase` without interference.  It closes a case exactly if the edge is allowed and a
    disposition was recorded since the last reopening; it reopens one exactly if its semantic key is free.
    */
    method TransitionCase(c: string, requested: Status) returns (r: Option<WorkflowError>)
      requires Valid()
      modifies this
      ensures Valid()
      ensures r == Some(CaseNotFound) <==> c !in old(cases)
      ensures r == Some(InvalidTransition) <==> c in old(cases) && !Allowed(old(cases)[c].status, requested)
      ensures c in old(cases) && Allowed(old(cases)[c].status, requested) && requested == Closed ==>
        r == if FreshAt(old(log), |old(log)|, c) then None else Some(DispositionRequired)
      ensures c in old(cases) && Allowed(old(cases)[c].status, requested) && requested == Open ==>
        r == if old(cases)[c].key.Some? && !Rivalled(old(cases), c, old(cases)[c].key) then None
          else Some(ReopenConflict)
      ensures c in old(cases) && Allowed(old(cases)[c].status, requested) && requested !in {Closed, Open} ==> r == None
      ensures r.Some? ==> Value() == old(Value())
      ensures r.None? ==>
        && cases.Keys == old(cases).Keys && cases[c].status == requested
        && (forall d :: d in cases && d != c ==> cases[d] == old(cases)[d])
        && log == old(log) + [Moved(c, old(cases)[c].status, requested, old(clock))]
        && cases[c].key == old(cases)[c].key
        && cases[c].closedAt == (if requested == Closed then Some(old(clock)) else None)
        && cases[c].requiredAfter == (if old(cases)[c].status == Closed then Some(old(clock))
          else old(cases)[c].requiredAfter)
    {
      hide Inv, FreshInv, FreshAt, Rivalled, HasDisposition, Earlier;
      ghost var s := Value();
      if c !in cases {
        return Some(CaseNotFound);
      }
      var seen := cases[c];
      if !Allowed(seen.status, requested) {
        return Some(InvalidTransition);
      }
      RemembersOf(s, c);
      TimestampsTellFreshness(log, c, seen.requiredAfter);
      if requested == Closed {
        if !HasDisposition(log, c, seen.requiredAfter) {
          return Some(DispositionRequired);
        }
      }
      if seen.status == Closed {
        if seen.key.None? || Rivalled(cases, c, seen.key) {
          return Some(ReopenConflict);
        }
      }
      var q := Request(c, requested, seen, true);
      var now := clock;
      AtomicKeeps(s, q, now);
      cases := cases[c := Written(cases[c], q, now)];
      log := log + [Moved(c, seen.status, requested, now)];
      clock := clock + 1;
      EarlierSnoc(s.log, Moved(c, seen.status, requested, now), clock);
      return None;
    }
  }

  lemma {:induction false} EarlierSnoc(log: seq<Entry>, e: Entry, now: nat)
    requires Earlier(log, e.at) && e.at < now
    ensures Earlier(log + [e], now)
  {
  }

  lemma {:induction false} RemembersOf(s: State, c: string)
    requires FreshInv(s) && c in s.cases
    ensures Ordered(s.log) && Remembers(s.log, c, s.cases[c].requiredAfter)
  {
  }

  /** A request that passes its lookup and writes at once is a read, a lookup and a write in a row. */
  lemma {:induction false} AtomicKeeps(s: State, q: Request, now: nat)
    requires Inv(s) && FreshInv(s) && s.requests == map[] && Earlier(s.log, now)
    requires q.caseId in s.cases && q.seen == s.cases[q.caseId] && Allowed(q.seen.status, q.requested) && q.cleared
    requires Lookup(s, q).None?
    ensures var t := State(s.cases[q.caseId := Written(q.seen, q, now)],
      s.log + [Moved(q.caseId, q.seen.status, q.requested, now)], map[]);
      Inv(t) && FreshInv(t)
  {
    hide Inv, FreshInv, HasDisposition, Rivalled, Earlier;
    var s1 := Apply(s, Reads(0, q.caseId, q.requested));
    KeepsInv(s, Reads(0, q.caseId, q.requested));
    KeepsFresh(s, Reads(0, q.caseId, q.requested));
    assert s1.requests[0] == q.(cleared := false);
    var s2 := Apply(s1, Looks(0));
    KeepsInv(s1, Looks(0));
    KeepsFresh(s1, Looks(0));
    assert s2.requests[0] == q;
    KeepsInv(s2, Writes(0, now));
    KeepsFresh(s2, Writes(0, now));
    assert s2.requests - {0} == map[];
  }
}
