/**
The macOS packet-filter containment adapter under fault injection.

A packet-filter command that fails may or may not have taken effect.  Enabling the filter may also
succeed without naming its token, in which case nobody can release it: those tokens are collected in
`unnamed`.  Store calls fail only when the store is not `reliable`; a failed write may leave the old
state, the new state or none.  Both count their calls and failures.  Times are seconds.
*/
module PfContainment {
  import opened Results

  const MAX_CONTAINMENT: int := 15 * 60

  datatype PfState = PfState(token: nat, expires: int, addresses: seq<string>)

  datatype Failure =
    | TargetMismatch | ActionExpired | AdapterDisabled | UnsupportedEnvironment
    | ResolutionFailed | EnableFailed | TokenMissing | CommandFailed | StateUnavailable | ReleaseFailed

  function Min(a: int, b: int): (m: int)
    ensures m <= a && m <= b && m in {a, b}
  {
    if a < b then a else b
  }

  /** How often commands were tried and failed. */
  datatype Calls = Calls(enablesFailed: nat, loadsFailed: nat, flushes: nat, flushesFailed: nat, releases: nat,
      releasesFailed: nat)

  const NO_CALLS: Calls := Calls(0, 0, 0, 0, 0, 0)

  function Failed(ok: bool): nat { if ok then 0 else 1 }

  // ---------------------------------------------------------------- the packet filter

  class PacketFilter {
    const reliable: bool
    var held: set<nat>
    var anchor: bool
    var nextToken: nat
    ghost var unnamed: set<nat>
    ghost var calls: Calls

    constructor (reliable: bool)
      ensures this.reliable == reliable && held == {} && !anchor && unnamed == {} && nextToken == 0
    {
      this.reliable := reliable;
      held, anchor, nextToken, unnamed, calls := {}, false, 0, {}, NO_CALLS;
    }

    ghost predicate Valid()
      reads this
    {
      unnamed <= held && forall t :: t in held ==> t < nextToken
    }

    /** `pfctl -E` */
    method Enable() returns (r: Result<nat, Failure>)
      requires Valid()
      modifies this
      ensures Valid() && anchor == old(anchor) && old(nextToken) <= nextToken
      ensures calls == old(calls).(enablesFailed := old(calls).enablesFailed + Failed(r.Ok?))
      ensures r.Ok? ==> r.value == old(nextToken) && held == old(held) + {r.value} && unnamed == old(unnamed)
      ensures r.Err? ==> held - unnamed == old(held - unnamed)
      ensures old(held) <= held && old(unnamed) <= unnamed
      ensures r.Ok? ==> held - unnamed == old(held - unnamed) + {r.value}
      ensures reliable ==> r.Ok?
    {
      var taken: bool, named: bool, silent: bool := *, *, *;
      if reliable {
        taken, named := true, true;
      }
      calls := calls.(enablesFailed := calls.enablesFailed + Failed(taken && named));
      if !taken {
        return Err(EnableFailed);
      }
      var token := nextToken;
      nextToken := nextToken + 1;
      held := held + {token};
      if !named {
        unnamed := unnamed + {token};
        return Err(if silent then TokenMissing else EnableFailed);
      }
      return Ok(token);
    }

    /** `pfctl -a anchor -f -` */
    method Load() returns (ok: bool)
      requires Valid()
      modifies this
      ensures Valid() && held == old(held) && unnamed == old(unnamed) && nextToken == old(nextToken)
      ensures ok ==> anchor
      ensures calls == old(calls).(loadsFailed := old(calls).loadsFailed + Failed(ok))
      ensures reliable ==> ok
    {
      var taken: bool := *;
      ok := *;
      if reliable {
        ok := true;
      }
      if ok || taken {
        anchor := true;
      }
      calls := calls.(loadsFailed := calls.loadsFailed + Failed(ok));
    }

    /** `pfctl -a anchor -F all` */
    method Flush() returns (ok: bool)
      requires Valid()
      modifies this
      ensures Valid() && held == old(held) && unnamed == old(unnamed) && nextToken == old(nextToken)
      ensures ok ==> !anchor
      ensures anchor ==> old(anchor)
      ensures calls == old(calls).(flushes := old(calls).flushes + 1,
        flushesFailed := old(calls).flushesFailed + Failed(ok))
      ensures reliable ==> ok
    {
      var taken: bool := *;
      ok := *;
      if reliable {
        ok := true;
      }
      if ok || taken {
        anchor := false;
      }
      calls := calls.(flushes := calls.flushes + 1, flushesFailed := calls.flushesFailed + Failed(ok));
    }

    /** `pfctl -X token` */
    method Release(token: nat) returns (ok: bool)
      requires Valid()
      modifies this
      ensures Valid() && anchor == old(anchor) && nextToken == old(nextToken)
      ensures ok ==> token !in held
      ensures held == old(held) || held == old(held) - {token}
      ensures held - unnamed <= old(held - unnamed) && unnamed <= old(unnamed)
      ensures calls == old(calls).(releases := old(calls).releases + 1,
        releasesFailed := old(calls).releasesFailed + Failed(ok))
      ensures reliable ==> ok
    {
      var taken: bool := *;
      ok := *;
      if reliable {
        ok := true;
      }
      if ok || taken {
        held := held - {token};
        unnamed := unnamed - {token};
      }
      calls := calls.(releases := calls.releases + 1, releasesFailed := calls.releasesFailed + Failed(ok));
    }
  }

  // ---------------------------------------------------------------- the state store

  class StateStore {
    const reliable: bool
    var state: Option<PfState>
    ghost var readsFailed: nat
    ghost var writesFailed: nat
    ghost var deletesFailed: nat

    constructor (reliable: bool)
      ensures this.reliable == reliable && state == None
    {
      this.reliable := reliable;
      state, readsFailed, writesFailed, deletesFailed := None, 0, 0, 0;
    }

    method Read() returns (r: Result<Option<PfState>, Failure>)
      modifies this
      ensures state == old(state) && writesFailed == old(writesFailed) && deletesFailed == old(deletesFailed)
      ensures readsFailed == old(readsFailed) + Failed(r.Ok?)
      ensures r.Ok? ==> r.value == state
      ensures reliable ==> r.Ok?
    {
      var ok: bool := *;
      r := if ok || reliable then Ok(state) else Err(StateUnavailable);
      readsFailed := readsFailed + Failed(r.Ok?);
    }

    method Write(s: PfState) returns (ok: bool)
      modifies this
      ensures ok ==> state == Some(s)
      ensures state in {old(state), Some(s), None}
      ensures readsFailed == old(readsFailed) && deletesFailed == old(deletesFailed)
      ensures writesFailed == old(writesFailed) + Failed(ok)
      ensures reliable ==> ok
    {
      ok := *;
      var replaced: bool, removed: bool := *, *;
      if ok || reliable {
        ok := true;
        state := Some(s);
      } else if replaced {
        state := if removed then None else Some(s);
      }
      writesFailed := writesFailed + Failed(ok);
    }

    method Delete() returns (ok: bool)
      modifies this
      ensures ok ==> state == None
      ensures !ok ==> state == old(state)
      ensures readsFailed == old(readsFailed) && writesFailed == old(writesFailed)
      ensures deletesFailed == old(deletesFailed) + Failed(ok)
      ensures reliable ==> ok
    {
      ok := *;
      if ok || reliable {
        ok := true;
        state := None;
      }
      deletesFailed := deletesFailed + Failed(ok);
    }
  }

  // ---------------------------------------------------------------- the adapter

  datatype ActionType = Isolate | ReleaseEndpoint

  datatype Action = Action(kind: ActionType, target: string, expires: int)

  datatype Outcome = Isolated | Released | Unchanged

  datatype Reconciliation = NothingDue | WasReleased | ReleaseDidFail | StateInvalid

  class Adapter {
    const device: string
    const enabled: bool
    const supported: bool
    const pf: PacketFilter
    const store: StateStore

    constructor (device: string, enabled: bool, supported: bool, pf: PacketFilter, store: StateStore)
      requires pf.Valid() && pf.held == {} && !pf.anchor && store.state == None
      ensures this.device == device && this.enabled == enabled && this.supported == supported
      ensures this.pf == pf && this.store == store && Valid() && Recorded()
    {
      this.device, this.enabled, this.supported := device, enabled, supported;
      this.pf, this.store := pf, store;
    }

    ghost predicate Valid()
      reads this, pf, store
    {
      pf.Valid() && (store.state.Some? ==> store.state.value.token < pf.nextToken)
    }

    /** The tokens that the adapter was told about and that are still held. */
    ghost function Known(): set<nat>
      reads this, pf
    {
      pf.held - pf.unnamed
    }

    /** A held token or a loaded anchor is on record, with that token. */
    ghost predicate Recorded()
      reads this, pf, store
    {
      && (forall t :: t in Known() ==> store.state.Some? && store.state.value.token == t)
      && (pf.anchor ==> store.state.Some?)
    }

    /** Since then no token was lost from sight, unless enabling the filter failed. */
    twostate predicate NoneLost()
      reads this, pf
    {
      && pf.calls.enablesFailed >= old(pf.calls.enablesFailed)
      && (pf.reliable || pf.calls.enablesFailed == old(pf.calls.enablesFailed) ==> pf.unnamed <= old(pf.unnamed))
    }

    /** No command and no store call has failed since. */
    twostate predicate Calm()
      reads this, pf, store
    {
      && pf.calls.enablesFailed == old(pf.calls.enablesFailed) && pf.calls.loadsFailed == old(pf.calls.loadsFailed)
      && pf.calls.flushesFailed == old(pf.calls.flushesFailed) &&
        pf.calls.releasesFailed == old(pf.calls.releasesFailed)
      && store.readsFailed == old(store.readsFailed) && store.writesFailed == old(store.writesFailed)
      && store.deletesFailed == old(store.deletesFailed)
    }

    /** A flush or a release has failed since. */
    twostate predicate RollbackFailed()
      reads this, pf
    {
      pf.calls.flushesFailed > old(pf.calls.flushesFailed) || pf.calls.releasesFailed > old(pf.calls.releasesFailed)
    }

    /** A read of the store has failed since, or more writes than the `ordinary` ones. */
    twostate predicate SaveFailed(ordinary: nat)
      reads this, pf, store
    {
      store.readsFailed > old(store.readsFailed) || store.writesFailed > old(store.writesFailed) + ordinary
    }

    /** The writes that an isolation makes besides saving the recovery state: none if loading failed. */
    twostate function OrdinaryWrites(): nat
      reads this, pf
    {
      if pf.calls.loadsFailed > old(pf.calls.loadsFailed) then 0 else 1
    }

    /** `_release_state` */
    method ReleaseState(s: PfState) returns (ok: bool)
      requires Valid() && Recorded() && store.state == Some(s)
      modifies pf, store
      ensures Valid() && Recorded()
      ensures ok ==> Known() == {} && s.token !in pf.held && !pf.anchor && store.state == None
      ensures pf.held <= old(pf.held) && pf.unnamed <= old(pf.unnamed) && NoneLost()
      ensures store.state == Some(s) || store.state == None
      ensures ok ==> pf.calls == old(pf.calls).(flushes := old(pf.calls).flushes + 1,
        releases := old(pf.calls).releases + 1)
      ensures store.readsFailed == old(store.readsFailed) && store.writesFailed == old(store.writesFailed)
      ensures ok <==> Calm()
      ensures !ok ==> RollbackFailed() || store.deletesFailed > old(store.deletesFailed)
      ensures pf.reliable && store.reliable ==> ok
    {
      var flushed := pf.Flush();
      assert Known() == old(Known());
      if !flushed {
        return false;
      }
      var released := pf.Release(s.token);
      assert Known() <= old(Known());
      if !released {
        return false;
      }
      ok := store.Delete();
    }

    /** `_rollback`: both commands are tried, whatever becomes of the first. */
    method Rollback(token: nat) returns (ok: bool)
      requires pf.Valid()
      modifies pf
      ensures pf.Valid() && pf.nextToken == old(pf.nextToken)
      ensures Known() <= old(Known()) && (pf.anchor ==> old(pf.anchor))
      ensures pf.held <= old(pf.held) && pf.unnamed <= old(pf.unnamed) && NoneLost()
      ensures ok ==> token !in pf.held && !pf.anchor
      ensures pf.calls.flushes == old(pf.calls.flushes) + 1 && pf.calls.releases == old(pf.calls.releases) + 1
      ensures ok <==> !RollbackFailed()
      ensures pf.calls.enablesFailed == old(pf.calls.enablesFailed) && pf.calls.loadsFailed == old(pf.calls.loadsFailed)
      ensures pf.reliable ==> ok
    {
      ok := pf.Flush();
      var released := pf.Release(token);
      ok := ok && released;
    }

    /** `_discard_failed_state` */
    method DiscardFailedState(token: nat)
      modifies store
      ensures store.state == old(store.state) ||
        (store.state == None && old(store.state).Some? && old(store.state).value.token == token)
      ensures store.writesFailed == old(store.writesFailed)
    {
      var current := store.Read();
      if current.Ok? && current.value.Some? && current.value.value.token == token {
        var _ := store.Delete();
      }
    }

    /** `_preserve_failed_rollback`: existing state is kept, or else the recovery state is saved if possible. */
    method PreserveFailedRollback(s: PfState)
      modifies store
      ensures old(store.state).Some? ==> store.state == old(store.state)
      ensures old(store.state).None? ==> store.state == Some(s) || (store.state == None && SaveFailed(0))
      ensures !SaveFailed(0) ==> store.state.Some?
      ensures store.reliable ==> !SaveFailed(0)
      ensures store.writesFailed >= old(store.writesFailed)
    {
      var current := store.Read();
      if current.Ok? && current.value.None? {
        var _ := store.Write(s);
      }
    }

    /** What an isolation may leave on record, whether it succeeds or not: its expiry is within both bounds. */
    ghost predicate Bounded(action: Action, now: int)
      reads this, store
    {
      store.state.Some? ==> store.state.value.expires == Min(action.expires, now + MAX_CONTAINMENT)
    }

    /** `_isolate`; `addresses` is what resolving the management host gave. */
    method IsolateEndpoint(action: Action, now: int, addresses: Option<seq<string>>)
      returns (r: Result<Outcome, Failure>)
      requires Valid() && Recorded()
      modifies pf, store
      ensures Valid()
      ensures Recorded() || (RollbackFailed() && SaveFailed(OrdinaryWrites()))
      ensures pf.reliable || store.reliable ==> Recorded()
      ensures old(store.state).Some? && old(store.state).value.expires > now ==>
        store.state == old(store.state) && pf.held == old(pf.held) && pf.anchor == old(pf.anchor)
      ensures store.state == old(store.state) || Bounded(action, now)
      ensures NoneLost()
      ensures r.Ok? && r.value == Isolated ==>
        && pf.anchor && store.state.Some? && store.state.value.token in pf.held
        && store.state.value.expires == Min(action.expires, now + MAX_CONTAINMENT)
      ensures r.Ok? ==> r.value == Isolated || r.value == Unchanged
      ensures r == Ok(Unchanged) ==> old(store.state).Some? && old(store.state).value.expires > now
      ensures Calm() && addresses.Some? ==> r.Ok?
    {
      var current := store.Read();
      if current.Err? {
        return Err(current.error);
      }
      if current.value.Some? {
        if current.value.value.expires > now {
          return Ok(Unchanged);
        }
        var released := ReleaseState(current.value.value);
        if !released {
          return Err(ReleaseFailed);
        }
      }
      if addresses.None? {
        return Err(ResolutionFailed);
      }
      r := Contain(action, now, addresses.value);
    }

    /** The part of `_isolate` behind the checks: enable, load, record, and roll back on any failure. */
    method Contain(action: Action, now: int, addresses: seq<string>) returns (r: Result<Outcome, Failure>)
      requires Valid() && Recorded() && store.state == None
      modifies pf, store
      ensures Valid()
      ensures Recorded() || (RollbackFailed() && SaveFailed(OrdinaryWrites()))
      ensures pf.reliable || store.reliable ==> Recorded()
      ensures Bounded(action, now) && NoneLost()
      ensures r.Ok? ==> r.value == Isolated
      ensures r.Ok? <==> Calm()
      ensures r.Ok? ==>
        && pf.anchor && store.state.Some? && store.state.value.token in pf.held
        && store.state.value.expires == Min(action.expires, now + MAX_CONTAINMENT)
    {
      assert Known() == {};
      var enabled := pf.Enable();
      if enabled.Err? {
        return Err(enabled.error);
      }
      var s := PfState(enabled.value, Min(action.expires, now + MAX_CONTAINMENT), addresses);
      var loaded := pf.Load();
      var written := false;
      if loaded {
        written := store.Write(s);
      }
      if written {
        return Ok(Isolated);
      }
      Undo(s);
      return Err(if loaded then StateUnavailable else CommandFailed);
    }

    /** The exception handler of `_isolate`. */
    method Undo(s: PfState)
      requires pf.Valid() && Known() <= {s.token} && s.token < pf.nextToken
      requires store.state == None || store.state == Some(s)
      modifies pf, store
      ensures pf.Valid() && pf.nextToken == old(pf.nextToken) && pf.calls.loadsFailed == old(pf.calls.loadsFailed)
      ensures store.state == None || store.state == Some(s)
      ensures Recorded() || (RollbackFailed() && SaveFailed(0))
      ensures !RollbackFailed() ==> Known() == {} && s.token !in pf.held && !pf.anchor
      ensures pf.held <= old(pf.held) && pf.unnamed <= old(pf.unnamed) && NoneLost()
      ensures pf.calls.enablesFailed == old(pf.calls.enablesFailed) && store.writesFailed >= old(store.writesFailed)
      ensures pf.reliable || store.reliable ==> Recorded()
    {
      var undone := Rollback(s.token);
      if undone {
        DiscardFailedState(s.token);
      } else {
        PreserveFailedRollback(s);
      }
    }

    /** `_release` */
    method ReleaseAll() returns (r: Result<Outcome, Failure>)
      requires Valid() && Recorded()
      modifies pf, store
      ensures Valid() && Recorded()
      ensures r.Ok? ==> Known() == {} && !pf.anchor && store.state == None && r.value in {Released, Unchanged}
      ensures r.Ok? <==> Calm()
      ensures r.Ok? ==> (r.value == Unchanged <==> old(store.state).None?)
      ensures store.state == old(store.state) || store.state == None
      ensures pf.held <= old(pf.held) && pf.unnamed <= old(pf.unnamed) && NoneLost()
    {
      var current := store.Read();
      if current.Err? {
        return Err(current.error);
      }
      if current.value.None? {
        return Ok(Unchanged);
      }
      var released := ReleaseState(current.value.value);
      return if released then Ok(Released) else Err(ReleaseFailed);
    }

    /** `release_owned_state_for_recovery` and `release_owned_state_for_uninstall` */
    method ReleaseForRecovery() returns (r: Result<Outcome, Failure>)
      requires Valid() && Recorded()
      modifies pf, store
      ensures Valid() && Recorded()
      ensures !supported ==>
        r == Err(UnsupportedEnvironment) && store.state == old(store.state) && pf.held == old(pf.held) &&
          pf.anchor == old(pf.anchor)
      ensures r.Ok? <==> supported && Calm()
      ensures r.Ok? ==> Known() == {} && !pf.anchor && store.state == None
      ensures store.state == old(store.state) || store.state == None
      ensures pf.held <= old(pf.held) && pf.unnamed <= old(pf.unnamed) && NoneLost()
    {
      if !supported {
        return Err(UnsupportedEnvironment);
      }
      r := ReleaseAll();
    }

    /** `execute` */
    method Execute(action: Action, now: int, addresses: Option<seq<string>>)
      returns (r: Result<Outcome, Failure>)
      requires Valid() && Recorded()
      modifies pf, store
      ensures Valid()
      ensures Recorded() || (RollbackFailed() && SaveFailed(OrdinaryWrites()))
      ensures pf.reliable || store.reliable ==> Recorded()
      ensures action.target != device || action.expires <= now || !supported || (action.kind == Isolate && !enabled) ==>
        r.Err? && store.state == old(store.state) && pf.held == old(pf.held) && pf.anchor == old(pf.anchor)
      ensures store.state == old(store.state) || store.state == None || (action.kind == Isolate && Bounded(action, now))
      ensures store.state.Some? && store.state != old(store.state) ==>
        store.state.value.expires <= action.expires && store.state.value.expires <= now + 15 * 60
      ensures NoneLost()
      ensures action.kind == Isolate && old(store.state).Some? && old(store.state).value.expires > now ==>
        store.state == old(store.state)
      ensures action.target == device && action.expires > now && supported && Calm() &&
              (action.kind == Isolate ==> enabled && addresses.Some?) ==>
        r.Ok? && (action.kind == ReleaseEndpoint ==> Known() == {} && !pf.anchor && store.state == None)
      ensures action.kind == Isolate && r == Ok(Unchanged) ==>
        old(store.state).Some? && old(store.state).value.expires > now
      ensures r.Ok? && r.value == Isolated ==>
        store.state.Some? && now < store.state.value.expires <= action.expires &&
        store.state.value.expires <= now + MAX_CONTAINMENT
    {
      if action.target != device {
        return Err(TargetMismatch);
      }
      if action.expires <= now {
        return Err(ActionExpired);
      }
      if !enabled && action.kind == Isolate {
        return Err(AdapterDisabled);
      }
      if !supported {
        return Err(UnsupportedEnvironment);
      }
      if action.kind == Isolate {
        r := IsolateEndpoint(action, now, addresses);
      } else {
        r := ReleaseAll();
      }
    }

    /** `reconcile`: unless a call fails, expired containment is gone afterwards, however it came to be left. */
    method Reconcile(now: int) returns (r: Reconciliation)
      requires Valid() && Recorded()
      modifies pf, store
      ensures Valid() && Recorded()
      ensures r == WasReleased ==> Known() == {} && !pf.anchor && store.state == None
      ensures store.state == old(store.state) || store.state == None
      ensures pf.held <= old(pf.held) && pf.unnamed <= old(pf.unnamed) && NoneLost()
      ensures Calm() && supported && (old(store.state).None? || old(store.state).value.expires <= now) ==>
        Known() == {} && !pf.anchor && store.state == None
      ensures r == NothingDue ==> old(store.state).None? || old(store.state).value.expires > now
      ensures r == WasReleased ==> old(store.state).Some? && old(store.state).value.expires <= now
      ensures r == StateInvalid <==> store.readsFailed > old(store.readsFailed)
      ensures r == ReleaseDidFail ==> !supported || RollbackFailed() || store.deletesFailed > old(store.deletesFailed)
      ensures old(store.state).Some? && old(store.state).value.expires > now ==>
        store.state == old(store.state) && pf.held == old(pf.held) && pf.anchor == old(pf.anchor)
    {
      var current := store.Read();
      if current.Err? {
        return StateInvalid;
      }
      if current.value.None? || current.value.value.expires > now {
        return NothingDue;
      }
      if !supported {
        return ReleaseDidFail;
      }
      var released := ReleaseState(current.value.value);
      return if released then WasReleased else ReleaseDidFail;
    }
  }

  // ---------------------------------------------------------------- whole runs

  datatype Operation = Do(action: Action, now: int, addresses: Option<seq<string>>) | Tick(now: int) | Uninstall

  /** The operation is an isolation that may have recorded this expiry. */
  predicate Sets(o: Operation, expires: int) {
    o.Do? && o.action.kind == Isolate && expires == Min(o.action.expires, o.now + MAX_CONTAINMENT)
  }

  /**
  Any sequence of operations in which packet-filter commands fail, or else store calls do: what is held or
  loaded is on record with its token; at most one known token is held, and unless enabling the filter fails
  every held token is known; and the recorded expiry is that of an isolation among the operations, within
  its action's expiry and fifteen minutes.
  */
  method Drive(a: Adapter, operations: seq<Operation>)
    requires a.Valid() && a.Recorded() && (a.store.reliable || a.pf.reliable)
    modifies a.pf, a.store
    ensures a.Valid() && a.Recorded()
    ensures forall t, u :: t in a.Known() && u in a.Known() ==> t == u
    ensures a.NoneLost()
    ensures old(a.pf.unnamed) == {} && a.pf.calls.enablesFailed == old(a.pf.calls.enablesFailed) ==>
      forall t :: t in a.pf.held ==> a.store.state.Some? && a.store.state.value.token == t
    ensures a.store.state.Some? && a.store.state != old(a.store.state) ==>
      exists o :: o in operations && o.Do? && o.action.kind == Isolate &&
        a.store.state.value.expires <= o.action.expires && a.store.state.value.expires <= o.now + 15 * 60
    ensures a.store.state.Some? ==>
      a.store.state == old(a.store.state) || exists o :: o in operations && Sets(o, a.store.state.value.expires)
  {
    for i := 0 to |operations|
      invariant a.Valid() && a.Recorded()
      invariant a.NoneLost()
      invariant a.store.state.Some? ==>
        a.store.state == old(a.store.state) || exists o :: o in operations && Sets(o, a.store.state.value.expires)
    {
      assert operations[i] in operations;
      match operations[i]
      case Do(action, now, addresses) => var _ := a.Execute(action, now, addresses);
      case Tick(now) => var _ := a.Reconcile(now);
      case Uninstall => var _ := a.ReleaseForRecovery();
    }
    assert a.pf.unnamed == {} ==> a.Known() == a.pf.held;
  }
}
