/**
Response actions: proposal, two-person decision, dispatch, result and expiry as interleaved statements.

A decision reads the action and updates it later, and a device lists its actions and marks them later;
any other request or the expiry sweep may run in between, and a request may vanish.  Clock readings are
given with each statement and need not agree between requests.
*/
module ResponseActions {
  import opened Results

  datatype Kind =
    | CollectDiagnostics
    | EnrichIndicator
    | IsolateEndpoint
    | ReleaseEndpoint
    | DisableIdentity
    | RevokeSessions

  datatype Risk = ReadOnly | ActiveRisk | HighImpact

  /** `actionRisk` */
  function RiskOf(k: Kind): Risk {
    match k
    case CollectDiagnostics => ReadOnly
    case EnrichIndicator => ReadOnly
    case IsolateEndpoint => ActiveRisk
    case ReleaseEndpoint => ActiveRisk
    case DisableIdentity => HighImpact
    case RevokeSessions => HighImpact
  }

  datatype Target = DeviceTarget(id: string) | IdentityTarget(id: string) | IndicatorTarget(id: string)

  /** An action names the kind of target that it works on. */
  predicate Suits(k: Kind, t: Target) {
    match k
    case EnrichIndicator => t.IndicatorTarget?
    case DisableIdentity => t.IdentityTarget?
    case RevokeSessions => t.IdentityTarget?
    case _ => t.DeviceTarget?
  }

  datatype Status = Proposed | Approved | Rejected | Dispatched | Succeeded | Failed | Expired

  datatype Approval = Approval(approver: string, at: nat)

  /** `reportedBy` is the device whose result was recorded. */
  datatype Action = Action(
    kind: Kind, target: Target, status: Status, proposedBy: string, approval: Option<Approval>, expires: nat,
      reportedBy: Option<string>)

  datatype AuditKind = AuditProposed | AuditApproved | AuditRejected | AuditSucceeded | AuditFailed

  datatype Audit = Audit(action: string, kind: AuditKind)

  datatype Decision = Decision(action: string, principal: string, approve: bool)

  datatype Poll = Poll(device: string, listed: set<string>, at: nat)

  /** An action handed to the agent of a device that listed it at some time. */
  datatype Delivery = Delivery(device: string, action: string, at: nat)

  datatype State = State(
    actions: map<string, Action>, audit: seq<Audit>, decisions: map<nat, Decision>, polls: map<nat, Poll>,
      deliveries: set<Delivery>)

  const POLICY: string := "policy:auto-read-only"
  const MIN_MINUTES: nat := 5
  const MAX_MINUTES: nat := 1440

  const INITIAL := State(map[], [], map[], map[], {})

  datatype Step =
    | Proposes(newId: string, kind: Kind, target: Target, principal: string, mayProposeActive: bool, now: nat,
      later: nat, minutes: nat)
    | Reads(id: nat, action: string, principal: string, approve: bool, now: nat)
    | Decides(id: nat, decidedAt: nat)
    | Lists(id: nat, device: string, chosen: set<string>, now: nat)
    | Dispatches(id: nat)
    | Reports(action: string, device: string, success: bool)
    | Sweeps(now: nat)
    | Abandons(id: nat)

  // ---------------------------------------------------------------- the statements

  function Proposal(kind: Kind, target: Target, principal: string, now: nat, expires: nat): Action {
    if RiskOf(kind) == ReadOnly then Action(kind, target, Approved, principal, Some(Approval(POLICY, now)), expires,
      None)
    else Action(kind, target, Proposed, principal, None, expires, None)
  }

  function Propose(s: State, id: string, kind: Kind, target: Target, principal: string, may: bool, now: nat,
      later: nat, minutes: nat): State {
    if id in s.actions || later < now || !Suits(kind, target) || !(MIN_MINUTES <= minutes <= MAX_MINUTES) ||
      (RiskOf(kind) != ReadOnly && !may) then s
    else s.(actions := s.actions[id := Proposal(kind, target, principal, now, later + minutes * 60000)],
            audit := s.audit + [Audit(id, AuditProposed)])
  }

  /** The checks of the decision handler on the row it read. */
  predicate MayDecide(a: Action, principal: string, now: nat) {
    a.status == Proposed && now < a.expires && (RiskOf(a.kind) == ReadOnly || a.proposedBy != principal)
  }

  function Decide(s: State, d: Decision, decidedAt: nat): State {
    if d.action !in s.actions || s.actions[d.action].status != Proposed ||
      s.actions[d.action].expires <= decidedAt then s
    else
      s.(actions := s.actions[d.action := s.actions[d.action].(
           status := if d.approve then Approved else Rejected, approval := Some(Approval(d.principal, decidedAt)))],
         audit := s.audit + [Audit(d.action, if d.approve then AuditApproved else AuditRejected)])
  }

  /** What the listing query selects for a device. */
  predicate Listable(s: State, id: string, device: string, now: nat) {
    id in s.actions && s.actions[id].target == DeviceTarget(device) &&
      s.actions[id].status in {Approved, Dispatched} && now < s.actions[id].expires
  }

  /** The update after a listing looks at neither the kind of target nor the expiry. */
  function Dispatch(s: State, p: Poll): State {
    if p.listed == {} then s
    else s.(
      actions := map id | id in s.actions ::
        if s.actions[id].target.id == p.device &&
          s.actions[id].status == Approved then s.actions[id].(status := Dispatched)
        else s.actions[id],
      deliveries := s.deliveries + (set id | id in p.listed :: Delivery(p.device, id, p.at)))
  }

  function Report(s: State, id: string, device: string, success: bool): State {
    if id !in s.actions || s.actions[id].target != DeviceTarget(device) || s.actions[id].status != Dispatched then s
    else s.(actions := s.actions[id := s.actions[id].(
              status := if success then Succeeded else Failed, reportedBy := Some(device))],
            audit := s.audit + [Audit(id, if success then AuditSucceeded else AuditFailed)])
  }

  function Sweep(s: State, now: nat): State {
    s.(actions := map id | id in s.actions ::
         if s.actions[id].status in {Proposed, Approved, Dispatched} && s.actions[id].expires < now
         then s.actions[id].(status := Expired) else s.actions[id])
  }

  function Apply(s: State, step: Step): State {
    match step
    case Proposes(id, kind, target, principal, may, now, later, minutes) => Propose(s, id, kind, target, principal,
      may, now, later, minutes)
    case Reads(id, action, principal, approve, now) =>
      if id in s.decisions || action !in s.actions || !MayDecide(s.actions[action], principal, now) then s
      else s.(decisions := s.decisions[id := Decision(action, principal, approve)])
    case Decides(id, decidedAt) =>
      if id !in s.decisions then s else Decide(s.(decisions := s.decisions - {id}), s.decisions[id], decidedAt)
    case Lists(id, device, chosen, now) =>
      if id in s.polls then s
      else s.(polls := s.polls[id := Poll(device, (set a | a in chosen && Listable(s, a, device, now)), now)])
    case Dispatches(id) =>
      if id !in s.polls then s else Dispatch(s.(polls := s.polls - {id}), s.polls[id])
    case Reports(id, device, success) => Report(s, id, device, success)
    case Sweeps(now) => Sweep(s, now)
    case Abandons(id) => s.(decisions := s.decisions - {id}, polls := s.polls - {id})
  }

  function Run(steps: seq<Step>): State {
    if steps == [] then INITIAL else Apply(Run(steps[..|steps| - 1]), steps[|steps| - 1])
  }

  // ---------------------------------------------------------------- what holds of every action

  /** Approved in time: by policy if the action only reads, otherwise by somebody other than its proposer. */
  predicate Authorized(a: Action) {
    a.approval.Some? && a.approval.value.at < a.expires &&
    (if RiskOf(a.kind) == ReadOnly then a.approval.value.approver == POLICY
      else a.approval.value.approver != a.proposedBy)
  }

  predicate ActionOk(a: Action) {
    && (a.status in {Approved, Dispatched, Succeeded, Failed} ==> Authorized(a))
    && (a.status in {Proposed, Rejected} ==> RiskOf(a.kind) != ReadOnly)
    && (a.status == Proposed <==> a.approval.None? && a.status != Expired)
    && (a.status == Expired && a.approval.Some? ==> Authorized(a))
    && (a.status == Expired && a.approval.None? ==> RiskOf(a.kind) != ReadOnly)
    && (a.status in {Succeeded, Failed} <==> a.reportedBy.Some?)
    && (a.reportedBy.Some? ==> a.target == DeviceTarget(a.reportedBy.value))
    && Suits(a.kind, a.target)
  }

  /** The audit rows that the row of an action accounts for, in order. */
  function Trail(a: Action): seq<AuditKind> {
    [AuditProposed] +
    (if RiskOf(a.kind) == ReadOnly || a.approval.None? then []
     else if a.status == Rejected then [AuditRejected] else [AuditApproved]) +
    (if a.status == Succeeded then [AuditSucceeded] else if a.status == Failed then [AuditFailed] else [])
  }

  /** The audited kinds of one action. */
  function Audited(audit: seq<Audit>, id: string): seq<AuditKind> {
    if audit == [] then [] else
    var before := Audited(audit[..|audit| - 1], id);
    if audit[|audit| - 1].action == id then before + [audit[|audit| - 1].kind] else before
  }

  lemma {:induction false} AuditedSnoc(audit: seq<Audit>, a: Audit, id: string)
    ensures Audited(audit + [a], id) == if a.action == id then Audited(audit, id) + [a.kind] else Audited(audit, id)
  {
    assert (audit + [a])[..|audit|] == audit;
  }

  /** Another person than the proposer decides. */
  predicate DecisionOk(s: State, d: Decision) {
    d.action in s.actions && (RiskOf(s.actions[d.action].kind) != ReadOnly ==>
      s.actions[d.action].proposedBy != d.principal)
  }

  /** The action may be carried out by the device. */
  predicate ForDevice(s: State, id: string, device: string, at: nat) {
    id in s.actions && s.actions[id].target == DeviceTarget(device) && Authorized(s.actions[id]) &&
      at < s.actions[id].expires
  }

  ghost predicate Inv(s: State) {
    && (forall id :: id in s.actions ==> ActionOk(s.actions[id]))
    && (forall id :: id in s.actions ==> Audited(s.audit, id) == Trail(s.actions[id]))
    && (forall id :: id !in s.actions ==> Audited(s.audit, id) == [])
    && (forall d :: d in s.decisions ==> DecisionOk(s, s.decisions[d]))
    && (forall p, id :: p in s.polls && id in s.polls[p].listed ==> ForDevice(s, id, s.polls[p].device, s.polls[p].at))
    && (forall d :: d in s.deliveries ==> ForDevice(s, d.action, d.device, d.at))
  }

  // ---------------------------------------------------------------- how one row may change

  /** The life of an action. */
  predicate Edge(from: Status, to: Status) {
    from == to ||
    match from
    case Proposed => to in {Approved, Rejected, Expired}
    case Approved => to in {Dispatched, Expired}
    case Dispatched => to in {Succeeded, Failed, Expired}
    case _ => false
  }

  /** What was proposed never changes, an approval is final, and the status moves along its life. */
  predicate Evolves(a: Action, b: Action) {
    && b.kind == a.kind && b.target == a.target && b.proposedBy == a.proposedBy && b.expires == a.expires
    && (a.approval.Some? ==> b.approval == a.approval)
    && (a.reportedBy.Some? ==> b.reportedBy == a.reportedBy)
    && (b.approval == a.approval || (a.status == Proposed && b.status in {Approved, Rejected}))
    && (b.reportedBy == a.reportedBy || (a.status == Dispatched && b.status in {Succeeded, Failed}))
    && Edge(a.status, b.status)
  }

  ghost predicate AllEvolve(s: State, t: State) {
    forall id :: id in s.actions ==> id in t.actions && Evolves(s.actions[id], t.actions[id])
  }

  lemma {:induction false} EvolvesKeeps(s: State, t: State)
    requires AllEvolve(s, t)
    ensures forall d :: DecisionOk(s, d) ==> DecisionOk(t, d)
    ensures forall id, device, at :: ForDevice(s, id, device, at) ==> ForDevice(t, id, device, at)
  {
    forall d | DecisionOk(s, d) ensures DecisionOk(t, d) {
      assert Evolves(s.actions[d.action], t.actions[d.action]);
    }
    forall id, device, at | ForDevice(s, id, device, at) ensures ForDevice(t, id, device, at) {
      assert Evolves(s.actions[id], t.actions[id]);
    }
  }

  /** A step keeps the invariant if each row it leaves is right and it adds no request or delivery. */
  lemma {:induction false} RowsKeep(s: State, t: State)
    requires Inv(s) && AllEvolve(s, t)
    requires forall id :: id in t.actions ==> ActionOk(t.actions[id]) && Audited(t.audit, id) == Trail(t.actions[id])
    requires forall id :: id !in t.actions ==> Audited(t.audit, id) == []
    requires t.decisions.Keys <= s.decisions.Keys && forall d :: d in t.decisions ==> t.decisions[d] == s.decisions[d]
    requires t.polls == s.polls && t.deliveries == s.deliveries
    ensures Inv(t)
  {
    hide ActionOk, Audited, Trail, DecisionOk, ForDevice, AllEvolve;
    EvolvesKeeps(s, t);
  }

  lemma {:induction false} ProposalRow(kind: Kind, target: Target, principal: string, now: nat, expires: nat)
    requires now < expires && Suits(kind, target)
    ensures var a := Proposal(kind, target, principal, now, expires); ActionOk(a) && Trail(a) == [AuditProposed]
  {
  }

  lemma {:induction false} ProposeKeeps(s: State, step: Step)
    requires Inv(s) && step.Proposes?
    ensures Inv(Apply(s, step)) && AllEvolve(s, Apply(s, step))
  {
    hide Audited, DecisionOk, ForDevice, ActionOk, Trail, Evolves, Proposal;
    forall a ensures Evolves(a, a) { EvolvesRefl(a); }
    var t := Apply(s, step);
    if t != s {
      ProposalRow(step.kind, step.target, step.principal, step.now, step.later + step.minutes * 60000);
      forall id ensures Audited(t.audit, id) == if id == step.newId then [AuditProposed] else Audited(s.audit, id) {
        AuditedSnoc(s.audit, Audit(step.newId, AuditProposed), id);
      }
      RowsKeep(s, t);
    }
  }

  lemma {:induction false} DecideRow(a: Action, d: Decision, at: nat)
    requires ActionOk(a) && a.status == Proposed && at < a.expires &&
      (RiskOf(a.kind) != ReadOnly ==> a.proposedBy != d.principal)
    ensures var b := a.(status := if d.approve then Approved
      else Rejected, approval := Some(Approval(d.principal, at)));
      ActionOk(b) && Evolves(a, b) && Trail(b) == Trail(a) + [if d.approve then AuditApproved else AuditRejected]
  {
  }

  lemma {:induction false} DecideKeeps(s: State, id: nat, at: nat)
    requires Inv(s)
    ensures Inv(Apply(s, Decides(id, at))) && AllEvolve(s, Apply(s, Decides(id, at)))
  {
    hide Audited, Trail, ActionOk, ForDevice, Evolves;
    forall a ensures Evolves(a, a) { EvolvesRefl(a); }
    var t := Apply(s, Decides(id, at));
    if id in s.decisions {
      var d := s.decisions[id];
      assert DecisionOk(s, d);
      if t.audit != s.audit {
        DecideRow(s.actions[d.action], d, at);
        var kind := if d.approve then AuditApproved else AuditRejected;
        forall x
          ensures Audited(t.audit, x) == if x == d.action then Audited(s.audit, x) + [kind] else Audited(s.audit, x)
        {
          AuditedSnoc(s.audit, Audit(d.action, kind), x);
        }
      }
      RowsKeep(s, t);
    }
  }

  lemma {:induction false} EvolvesRefl(a: Action) ensures Evolves(a, a) {}

  lemma {:induction false} ReadsKeep(s: State, step: Step)
    requires Inv(s) && step.Reads?
    ensures Inv(Apply(s, step)) && AllEvolve(s, Apply(s, step))
  {
    hide Audited, Trail, ActionOk, ForDevice;
    SameActions(s, Apply(s, step));
  }

  lemma {:induction false} ListsKeep(s: State, step: Step)
    requires Inv(s) && step.Lists?
    ensures Inv(Apply(s, step)) && AllEvolve(s, Apply(s, step))
  {
    hide Audited, Trail, DecisionOk, Authorized;
    var t := Apply(s, step);
    if t != s {
      forall a | Listable(s, a, step.device, step.now) ensures ForDevice(s, a, step.device, step.now) {
        assert ActionOk(s.actions[a]);
      }
      hide ActionOk, Listable, ForDevice;
      assert t.actions == s.actions;
      SameActions(s, t);
    }
  }

  lemma {:induction false} SameActions(s: State, t: State)
    requires t.actions == s.actions
    ensures forall id, device, at :: ForDevice(s, id, device, at) ==> ForDevice(t, id, device, at)
    ensures forall d :: DecisionOk(s, d) ==> DecisionOk(t, d)
  {
  }

  lemma {:induction false} DispatchRow(a: Action)
    requires ActionOk(a) && a.status == Approved
    ensures var b := a.(status := Dispatched); ActionOk(b) && Evolves(a, b) && Trail(b) == Trail(a)
  {
  }

  lemma {:induction false} DispatchKeeps(s: State, id: nat)
    requires Inv(s)
    ensures Inv(Apply(s, Dispatches(id))) && AllEvolve(s, Apply(s, Dispatches(id)))
  {
    hide Audited, Trail, ActionOk, ForDevice, Evolves, DecisionOk;
    forall a ensures Evolves(a, a) { EvolvesRefl(a); }
    if id in s.polls && s.polls[id].listed != {} {
      var p := s.polls[id];
      var t := Apply(s, Dispatches(id));
      forall x | x in s.actions
        ensures x in t.actions && Evolves(s.actions[x], t.actions[x]) && ActionOk(t.actions[x]) &&
          Trail(t.actions[x]) == Trail(s.actions[x])
      {
        if s.actions[x].status == Approved { DispatchRow(s.actions[x]); }
      }
      EvolvesKeeps(s, t);
      forall d | d in t.deliveries ensures ForDevice(t, d.action, d.device, d.at) {
        if d !in s.deliveries {
          assert d.action in p.listed && d == Delivery(p.device, d.action, p.at);
          assert ForDevice(s, d.action, s.polls[id].device, s.polls[id].at);
        }
      }
    } else {
      SameActions(s, Apply(s, Dispatches(id)));
    }
  }

  lemma {:induction false} ReportRow(a: Action, device: string, success: bool)
    requires ActionOk(a) && a.status == Dispatched && a.target == DeviceTarget(device)
    ensures var b := a.(status := if success then Succeeded else Failed, reportedBy := Some(device));
      ActionOk(b) && Evolves(a, b) && Trail(b) == Trail(a) + [if success then AuditSucceeded else AuditFailed]
  {
  }

  lemma {:induction false} ReportKeeps(s: State, id: string, device: string, success: bool)
    requires Inv(s)
    ensures Inv(Apply(s, Reports(id, device, success))) && AllEvolve(s, Apply(s, Reports(id, device, success)))
  {
    hide Audited, Trail, ActionOk, ForDevice, Evolves, DecisionOk;
    forall a ensures Evolves(a, a) { EvolvesRefl(a); }
    var t := Apply(s, Reports(id, device, success));
    if t.audit != s.audit {
      ReportRow(s.actions[id], device, success);
      var kind := if success then AuditSucceeded else AuditFailed;
      forall x ensures Audited(t.audit, x) == if x == id then Audited(s.audit, x) + [kind] else Audited(s.audit, x) {
        AuditedSnoc(s.audit, Audit(id, kind), x);
      }
    }
    RowsKeep(s, t);
  }

  lemma {:induction false} ExpireRow(a: Action)
    requires ActionOk(a) && a.status in {Proposed, Approved, Dispatched}
    ensures var b := a.(status := Expired); ActionOk(b) && Evolves(a, b) && Trail(b) == Trail(a)
  {
  }

  lemma {:induction false} SweepKeeps(s: State, now: nat)
    requires Inv(s)
    ensures Inv(Apply(s, Sweeps(now))) && AllEvolve(s, Apply(s, Sweeps(now)))
  {
    hide Audited, Trail, ActionOk, ForDevice, Evolves, DecisionOk;
    var t := Apply(s, Sweeps(now));
    forall x | x in s.actions
      ensures x in t.actions && Evolves(s.actions[x], t.actions[x]) && ActionOk(t.actions[x]) &&
        Trail(t.actions[x]) == Trail(s.actions[x])
    {
      EvolvesRefl(s.actions[x]);
      if s.actions[x].status in {Proposed, Approved, Dispatched} { ExpireRow(s.actions[x]); }
    }
    RowsKeep(s, t);
  }

  lemma {:induction false} AbandonKeeps(s: State, id: nat)
    requires Inv(s)
    ensures Inv(Apply(s, Abandons(id))) && AllEvolve(s, Apply(s, Abandons(id)))
  {
    hide Audited, Trail, ActionOk;
    SameActions(s, Apply(s, Abandons(id)));
  }

  lemma {:induction false} KeepsInv(s: State, step: Step)
    requires Inv(s)
    ensures Inv(Apply(s, step)) && AllEvolve(s, Apply(s, step))
  {
    hide Inv, Apply, AllEvolve;
    match step
    case Proposes(_, _, _, _, _, _, _, _) => ProposeKeeps(s, step);
    case Reads(_, _, _, _, _) => ReadsKeep(s, step);
    case Decides(id, at) => DecideKeeps(s, id, at);
    case Lists(_, _, _, _) => ListsKeep(s, step);
    case Dispatches(id) => DispatchKeeps(s, id);
    case Reports(id, device, success) => ReportKeeps(s, id, device, success);
    case Sweeps(now) => SweepKeeps(s, now);
    case Abandons(id) => AbandonKeeps(s, id);
  }

  lemma {:induction false} RunKeepsInv(steps: seq<Step>)
    ensures Inv(Run(steps))
  {
    hide Apply;
    if steps != [] {
      RunKeepsInv(steps[..|steps| - 1]);
      KeepsInv(Run(steps[..|steps| - 1]), steps[|steps| - 1]);
    }
  }

  // ---------------------------------------------------------------- main results

  /**
  However requests interleave: an action that is not read-only is approved, dispatched or completed only
  if somebody other than its proposer approved it before it expired; a result is recorded only for an
  action on the reporting device; whatever was delivered to a device was meant for it, authorized and
  listed before expiry; and the audit rows of an action are exactly those that its row accounts for.
  */
  lemma {:induction false} EveryRun(steps: seq<Step>)
    ensures var s := Run(steps);
      && (forall id :: id in s.actions && s.actions[id].status in {Approved, Dispatched, Succeeded, Failed} ==>
        Authorized(s.actions[id]))
      && (forall id :: id in s.actions && s.actions[id].reportedBy.Some? ==>
        s.actions[id].target == DeviceTarget(s.actions[id].reportedBy.value))
      && (forall id :: id in s.actions ==>
        (s.actions[id].status in {Succeeded, Failed} <==> s.actions[id].reportedBy.Some?))
      && (forall d :: d in s.deliveries ==> ForDevice(s, d.action, d.device, d.at))
      && (forall id :: id in s.actions ==> Audited(s.audit, id) == Trail(s.actions[id]))
  {
    hide Run, Audited, Trail, ForDevice, Authorized;
    RunKeepsInv(steps);
    assert forall id :: id in Run(steps).actions ==> ActionOk(Run(steps).actions[id]);
  }

  /**
  The two-person law with the kinds by name: whatever isolates or releases an endpoint, disables an
  identity or revokes sessions was approved, on audit, by somebody other than its proposer and before it
  expired, and is aimed at the kind of target that it works on.
  */
  lemma {:induction false} TwoPersonsByName(steps: seq<Step>, id: string)
    requires id in Run(steps).actions
    ensures var s := Run(steps); var a := s.actions[id];
      && (a.kind !in {CollectDiagnostics, EnrichIndicator} && a.status in {Approved, Dispatched, Succeeded, Failed} ==>
            && AuditApproved in Audited(s.audit, id) && a.approval.Some?
            && a.approval.value.approver != a.proposedBy && a.approval.value.at < a.expires)
      && (a.kind in {CollectDiagnostics, EnrichIndicator} ==>
        a.approval.Some? && AuditApproved !in Audited(s.audit, id))
      && (a.kind in {CollectDiagnostics, IsolateEndpoint, ReleaseEndpoint} ==> a.target.DeviceTarget?)
      && (a.kind in {DisableIdentity, RevokeSessions} ==> a.target.IdentityTarget?)
      && (a.kind == EnrichIndicator ==> a.target.IndicatorTarget?)
  {
    hide Run, Audited;
    RunKeepsInv(steps);
    var s := Run(steps);
    assert ActionOk(s.actions[id]) && Audited(s.audit, id) == Trail(s.actions[id]);
    TrailByName(s.actions[id]);
  }

  lemma {:induction false} TrailByName(a: Action)
    requires ActionOk(a)
    ensures a.kind !in {CollectDiagnostics, EnrichIndicator} && a.approval.Some? && a.status != Rejected ==>
      AuditApproved in Trail(a)
    ensures a.kind in {CollectDiagnostics, EnrichIndicator} ==> AuditApproved !in Trail(a)
  {
    if a.kind !in {CollectDiagnostics, EnrichIndicator} && a.approval.Some? && a.status != Rejected {
      assert Trail(a)[1] == AuditApproved;
    }
  }

  // ---------------------------------------------------------------- what each request achieves

  /** The row after a proposal: only the two read-only kinds are approved at once, by policy. */
  lemma {:induction false} ProposalsByName(
      s: State, id: string, kind: Kind, target: Target, principal: string, may: bool, now: nat, later: nat,
        minutes: nat)
    requires id !in s.actions && now <= later && 5 <= minutes <= 1440 && Suits(kind, target)
    ensures var t := Apply(s, Proposes(id, kind, target, principal, may, now, later, minutes));
      && (kind in {CollectDiagnostics, EnrichIndicator} ==>
            id in t.actions && t.actions[id] ==
            Action(kind, target, Approved, principal, Some(Approval("policy:auto-read-only", now)),
              later + minutes * 60000, None))
      && (kind !in {CollectDiagnostics, EnrichIndicator} && may ==>
            id in t.actions && t.actions[id] ==
              Action(kind, target, Proposed, principal, None, later + minutes * 60000, None))
      && (kind !in {CollectDiagnostics, EnrichIndicator} && !may ==> t == s)
  {
  }

  /** A decision takes effect if and only if another principal makes it before expiry on a proposed action. */
  lemma {:induction false} DecisionsByName(s: State, k: nat, id: string, principal: string, approve: bool, now: nat,
      at: nat)
    requires Inv(s) && k !in s.decisions && id in s.actions
    ensures var a := s.actions[id];
      var t := Apply(Apply(s, Reads(k, id, principal, approve, now)), Decides(k, at));
      if a.status == Proposed && principal != a.proposedBy && now < a.expires && at < a.expires then
        t.actions == s.actions[id := a.(
          status := if approve then Approved else Rejected, approval := Some(Approval(principal, at)))]
      else t.actions == s.actions
  {
    hide Audited, Trail, ForDevice;
    var a := s.actions[id];
    assert ActionOk(a);
    var u := Apply(s, Reads(k, id, principal, approve, now));
    if u != s {
      assert u.decisions[k] == Decision(id, principal, approve);
    }
  }

  /** An approved action on a device that lists it in time is delivered, and its result is recorded. */
  lemma {:induction false} DeviceCompletes(s: State, k: nat, id: string, device: string, now: nat, success: bool)
    requires k !in s.polls && id in s.actions && s.actions[id].target == DeviceTarget(device)
    requires s.actions[id].status in {Approved, Dispatched} && now < s.actions[id].expires
    ensures var t := Apply(Apply(s, Lists(k, device, {id}, now)), Dispatches(k));
      var u := Apply(t, Reports(id, device, success));
      && Delivery(device, id, now) in t.deliveries && id in t.actions && t.actions[id].status == Dispatched
      && id in u.actions && u.actions[id].status == (if success then Succeeded else Failed)
      && u.actions[id].reportedBy == Some(device)
  {
    var u := Apply(s, Lists(k, device, {id}, now));
    assert Listable(s, id, device, now);
    assert id in u.polls[k].listed;
  }

  /** The sweep expires exactly the open actions whose time is over. */
  lemma {:induction false} SweepsByName(s: State, now: nat, id: string)
    requires id in s.actions
    ensures var a := s.actions[id]; var t := Apply(s, Sweeps(now));
      id in t.actions && t.actions[id] ==
      if a.status in {Proposed, Approved, Dispatched} && a.expires < now then a.(status := Expired) else a
  {
  }

  // ---------------------------------------------------------------- rows over time

  /** The same request for action, whose approval and result, once there, are the same too. */
  predicate SameProposal(a: Action, b: Action) {
    && b.kind == a.kind && b.target == a.target && b.proposedBy == a.proposedBy && b.expires == a.expires
    && (a.approval.Some? ==> b.approval == a.approval)
    && (a.reportedBy.Some? ==> b.reportedBy == a.reportedBy)
  }

  predicate Terminal(a: Status) { a in {Rejected, Succeeded, Failed, Expired} }

  /** Once an action has reached a terminal status, no continuation of the run changes its row. */
  lemma {:induction false} TerminalIsFinal(steps: seq<Step>, more: seq<Step>, id: string)
    requires id in Run(steps).actions
    ensures id in Run(steps + more).actions && SameProposal(Run(steps).actions[id], Run(steps + more).actions[id])
    ensures Terminal(Run(steps).actions[id].status) ==> Run(steps + more).actions[id] == Run(steps).actions[id]
    decreases |more|
  {
    hide Apply, Inv;
    if more == [] {
      assert steps + more == steps;
    } else {
      var n := |more| - 1;
      TerminalIsFinal(steps, more[..n], id);
      var before := steps + more[..n];
      assert (steps + more)[..|steps + more| - 1] == before && (steps + more)[|steps + more| - 1] == more[n];
      RunKeepsInv(before);
      KeepsInv(Run(before), more[n]);
      assert Evolves(Run(before).actions[id], Run(steps + more).actions[id]);
    }
  }

  // ---------------------------------------------------------------- dispatch beyond the listing

  /** An action on an identity or indicator that was marked dispatched never completes: it can only expire. */
  lemma {:induction false} UndeliverableOnlyExpires(steps: seq<Step>, more: seq<Step>, id: string)
    requires id in Run(steps).actions && Run(steps).actions[id].status == Dispatched &&
      !Run(steps).actions[id].target.DeviceTarget?
    ensures id in Run(steps + more).actions && Run(steps + more).actions[id].status in {Dispatched, Expired}
    ensures forall d :: d in Run(steps + more).deliveries ==> d.action != id
    decreases |more|
  {
    hide Apply, Inv, Run, Authorized, Audited, Trail, SameProposal;
    var s, t := Run(steps), Run(steps + more);
    EveryRun(steps + more);
    TerminalIsFinal(steps, more, id);
    assert t.actions[id].target == s.actions[id].target by { SameTarget(s.actions[id], t.actions[id]); }
    if more == [] {
      assert steps + more == steps;
    } else {
      var n := |more| - 1;
      UndeliverableOnlyExpires(steps, more[..n], id);
      var before := steps + more[..n];
      assert steps + more == before + [more[n]];
      RunSnoc(before, more[n]);
      RunKeepsInv(before);
      KeepsInv(Run(before), more[n]);
      assert Evolves(Run(before).actions[id], t.actions[id]);
    }
  }

  lemma {:induction false} SameTarget(a: Action, b: Action)
    requires SameProposal(a, b)
    ensures b.target == a.target
  {
  }

  predicate Completed(s: State, id: string) { id in s.actions && s.actions[id].status in {Succeeded, Failed} }

  /** In every run, a dispatched action can still complete exactly if it targets a device. */
  lemma {:induction false} CompletesExactly(steps: seq<Step>, id: string)
    requires id in Run(steps).actions && Run(steps).actions[id].status == Dispatched
    ensures (exists more :: Completed(Run(steps + more), id)) <==> Run(steps).actions[id].target.DeviceTarget?
  {
    hide Run;
    var a := Run(steps).actions[id];
    if a.target.DeviceTarget? {
      var report := Reports(id, a.target.id, true);
      RunSnoc(steps, report);
      assert Completed(Run(steps + [report]), id);
    } else {
      forall more | id in Run(steps + more).actions
        ensures Run(steps + more).actions[id].status in {Dispatched, Expired}
      {
        UndeliverableOnlyExpires(steps, more, id);
      }
    }
  }

  /** The action is marked dispatched by the update that follows the listing of poll `id`. */
  predicate Marks(s: State, id: nat, x: string) {
    x in s.actions && s.actions[x].status == Approved && x in Apply(s, Dispatches(id)).actions &&
    Apply(s, Dispatches(id)).actions[x].status == Dispatched
  }

  /**
  The update after a listing that found something marks only actions on the listing device exactly if no
  approved action on an identity or indicator goes by the name of that device.
  */
  lemma {:induction false} MarksOnlyTheDeviceExactly(s: State, id: nat)
    requires id in s.polls && s.polls[id].listed != {}
    ensures (forall x :: Marks(s, id, x) ==> s.actions[x].target == DeviceTarget(s.polls[id].device)) <==>
      !exists x :: x in s.actions && s.actions[x].status == Approved && s.actions[x].target.id == s.polls[id].device &&
        !s.actions[x].target.DeviceTarget?
  {
    var device := s.polls[id].device;
    forall x
      ensures Marks(s, id, x) <==> x in s.actions && s.actions[x].status == Approved && s.actions[x].target.id == device
    {
    }
  }

  lemma {:induction false} RunSnoc(steps: seq<Step>, step: Step)
    ensures Run(steps + [step]) == Apply(Run(steps), step)
  {
    assert (steps + [step])[..|steps|] == steps;
  }

  function Diagnostics(): Action {
    Action(CollectDiagnostics, DeviceTarget("x"), Approved, "p", Some(Approval(POLICY, 0)), 300000, None)
  }

  function Revocation(): Action { Action(RevokeSessions, IdentityTarget("x"), Proposed, "p", None, 300000, None) }

  lemma {:induction false} TwoProposals()
    ensures var s1 := Apply(INITIAL, Proposes("d", CollectDiagnostics, DeviceTarget("x"), "p", true, 0, 0, 5));
      var s2 := Apply(s1, Proposes("r", RevokeSessions, IdentityTarget("x"), "p", true, 0, 0, 5));
      s2.actions == map["d" := Diagnostics(), "r" := Revocation()] && s2.decisions == map[] && s2.polls == map[]
  {
  }

  lemma {:induction false} SecondPersonApproves(s: State)
    requires s.actions == map["d" := Diagnostics(), "r" := Revocation()] && s.decisions == map[] && s.polls == map[]
    ensures var t := Apply(Apply(s, Reads(0, "r", "q", true, 1)), Decides(0, 1));
      && t.actions == map["d" := Diagnostics(),
        "r" := Revocation().(status := Approved, approval := Some(Approval("q", 1)))]
      && t.polls == map[]
  {
    var s1 := Apply(s, Reads(0, "r", "q", true, 1));
    assert s1.decisions == map[0 := Decision("r", "q", true)];
  }

  lemma {:induction false} DeviceDispatchesBoth(s: State)
    requires "d" in s.actions && s.actions["d"] == Diagnostics() && s.polls == map[]
    requires "r" in s.actions && s.actions["r"] == Revocation().(status := Approved, approval := Some(Approval("q", 1)))
    ensures var t := Apply(Apply(s, Lists(0, "x", {"d", "r"}, 2)), Dispatches(0));
      "r" in t.actions && t.actions["r"].status == Dispatched && t.actions["r"].target == IdentityTarget("x")
  {
    var s1 := Apply(s, Lists(0, "x", {"d", "r"}, 2));
    assert Listable(s, "d", "x", 2);
    assert "d" in s1.polls[0].listed;
  }

  predicate IsMisdispatched(s: State) {
    "r" in s.actions && s.actions["r"].status == Dispatched && s.actions["r"].target == IdentityTarget("x")
  }

  /** The update that follows a listing also marks an action on an identity that shares the device's name. */
  lemma {:induction false} DispatchReachesIdentities()
    ensures exists steps :: IsMisdispatched(Run(steps))
  {
    hide Run, Apply;
    var a := Proposes("d", CollectDiagnostics, DeviceTarget("x"), "p", true, 0, 0, 5);
    var b := Proposes("r", RevokeSessions, IdentityTarget("x"), "p", true, 0, 0, 5);
    var two := [] + [a] + [b];
    RunOfNothing();
    RunSnoc([], a);
    RunSnoc([] + [a], b);
    TwoProposals();
    var four := two + [Reads(0, "r", "q", true, 1)] + [Decides(0, 1)];
    RunSnoc(two, Reads(0, "r", "q", true, 1));
    RunSnoc(two + [Reads(0, "r", "q", true, 1)], Decides(0, 1));
    SecondPersonApproves(Run(two));
    var six := four + [Lists(0, "x", {"d", "r"}, 2)] + [Dispatches(0)];
    RunSnoc(four, Lists(0, "x", {"d", "r"}, 2));
    RunSnoc(four + [Lists(0, "x", {"d", "r"}, 2)], Dispatches(0));
    DeviceDispatchesBoth(Run(four));
    assert IsMisdispatched(Run(six));
  }

  lemma {:induction false} RunOfNothing() ensures Run([]) == INITIAL {}
}
