/**
Endpoint credential rotation as a protocol between the control plane and one agent, with a crash
possible after every step and responses that may be lost.

A credential identifier stands for the pair of identifier and secret.  Every run of the agent starts
with the pair in the keychain, and an exception ends the run, so a failed step and a crash look alike.
Credential lifetimes do not run out; the delivery window of a rotation does, once and for good, and both
sides see it at the same time.
*/
module CredentialRotation {
  import opened Results

  datatype Credential = Credential(activated: bool, revoked: bool)

  datatype Status = Pending | Delivered | Acknowledged | Cancelled

  /** `open` says whether the delivery window is still open. */
  datatype Rotation = Rotation(predecessor: nat, replacement: nat, status: Status, deliveries: nat, open: bool)

  datatype Server = Server(credentials: map<nat, Credential>, rotations: map<nat, Rotation>)

  datatype Material = Material(rotation: nat, predecessor: nat, replacement: nat)

  /** Where a run of the agent stands inside `_handle_credential_rotation`. */
  datatype Phase = Idle | Received(m: Material) | Noted(m: Material) | Swapped(m: Material) | Confirmed(rotation: nat)

  datatype State = State(server: Server, keychain: nat, pending: Option<Material>, client: nat, phase: Phase)

  const MAX_DELIVERIES: nat := 10

  // ---------------------------------------------------------------- the control plane

  predicate IsActive(v: Server, c: nat) {
    c in v.credentials && v.credentials[c].activated && !v.credentials[c].revoked
  }

  predicate IsLive(v: Server, r: nat) { r in v.rotations && v.rotations[r].status in {Pending, Delivered} }

  predicate HasLive(v: Server) { exists r :: r in v.rotations && IsLive(v, r) }

  /** `r` is the rotation that issued the replacement credential `c`. */
  predicate Issued(v: Server, r: nat, c: nat) { r in v.rotations && v.rotations[r].replacement == c }

  predicate OneActive(v: Server, c: nat) {
    IsActive(v, c) && forall x :: x in v.credentials && IsActive(v, x) ==> x == c
  }

  function SetStatus(v: Server, r: nat, status: Status): Server
    requires r in v.rotations
  {
    v.(rotations := v.rotations[r := v.rotations[r].(status := status)])
  }

  /** `initiate`: one active credential, no live rotation; the replacement starts inactive. */
  ghost function Initiate(v: Server, r: nat, replacement: nat): Server {
    if r in v.rotations || replacement in v.credentials || HasLive(v) then v
    else if c: nat :| OneActive(v, c) then
      Server(v.credentials[replacement := Credential(false, false)],
             v.rotations[r := Rotation(c, replacement, Pending, 0, true)])
    else v
  }

  /** `_cancel_row`: the replacement is revoked with its rotation. */
  function CancelRow(v: Server, r: nat): Server
    requires r in v.rotations && v.rotations[r].replacement in v.credentials
  {
    var c := v.rotations[r].replacement;
    var revoked := v.(credentials := if v.credentials[c].activated then v.credentials
                                     else v.credentials[c := v.credentials[c].(revoked := true)]);
    SetStatus(revoked, r, Cancelled)
  }

  /** `cancel`: administrators may only cancel what was not delivered. */
  function Cancel(v: Server, r: nat): Server {
    if r in v.rotations && v.rotations[r].status == Pending && v.rotations[r].replacement in v.credentials
    then CancelRow(v, r) else v
  }

  datatype PollReply = Nothing | Envelope(m: Material) | PollRefused

  /** The delivery window of a live rotation runs out. */
  function CloseWindow(v: Server, r: nat): Server {
    if IsLive(v, r) then v.(rotations := v.rotations[r := v.rotations[r].(open := false)]) else v
  }

  predicate IsOpen(v: Server, r: nat) { r in v.rotations && v.rotations[r].open }

  /** `poll` by an authenticated credential; a rotation past its delivery window is cancelled. */
  ghost function Poll(v: Server, client: nat): (Server, PollReply) {
    if !IsActive(v, client) then (v, PollRefused)
    else if r: nat :| IsLive(v, r) then
      var row := v.rotations[r];
      if row.predecessor != client then (v, PollRefused)
      else if !row.open then (if row.replacement in v.credentials then CancelRow(v, r) else v, Nothing)
      else if row.deliveries >= MAX_DELIVERIES then (v, PollRefused)
      else
        (v.(rotations := v.rotations[r := row.(status := Delivered, deliveries := row.deliveries + 1)]),
         Envelope(Material(r, client, row.replacement)))
    else (v, Nothing)
  }

  /** A replacement that is not active yet may authenticate for its acknowledgement only. */
  predicate MayAcknowledge(v: Server, client: nat) {
    && client in v.credentials && !v.credentials[client].revoked
    && (v.credentials[client].activated ||
        exists r :: r in v.rotations && Issued(v, r, client) && v.rotations[r].status == Delivered)
  }

  /** `acknowledge`: activates the replacement and retires the predecessor, or changes nothing. */
  ghost function Acknowledge(v: Server, client: nat): (Server, bool) {
    if !MayAcknowledge(v, client) then (v, false)
    else if r: nat :| Issued(v, r, client) then
      var row := v.rotations[r];
      if row.status == Acknowledged then (v, true)
      else if row.status == Delivered && !v.credentials[client].activated && IsActive(v, row.predecessor) then
        var settled := v.credentials[client := Credential(true, false)][row.predecessor := Credential(true, true)];
        (SetStatus(v.(credentials := settled), r, Acknowledged), true)
      else (v, false)
    else (v, true)
  }

  // ---------------------------------------------------------------- the agent

  datatype Step =
    | AdminInitiates(rotation: nat, replacement: nat)
    | AdminCancels(rotation: nat)
    | WindowCloses(rotation: nat)
    | AgentPolls(lost: bool)
    | AgentNotes
    | AgentSwaps(works: bool)
    | AgentAcknowledges(lost: bool)
    | AgentClears
    | Restart

  predicate Resuming(s: State) { s.pending.Some? && s.client == s.pending.value.replacement }

  function Restarted(s: State): State { s.(client := s.keychain, phase := Idle) }

  ghost function Apply(s: State, step: Step): State {
    match step
    case AdminInitiates(r, c) => s.(server := Initiate(s.server, r, c))
    case AdminCancels(r) => s.(server := Cancel(s.server, r))
    case WindowCloses(r) => s.(server := CloseWindow(s.server, r))
    case AgentPolls(lost) =>
      if !s.phase.Idle? || Resuming(s) then s else
      var (v, reply) := Poll(s.server, s.client);
      if reply.Envelope? && !lost then s.(server := v, phase := Received(reply.m))
      else Restarted(s.(server := v))
    case AgentNotes =>
      if !s.phase.Received? then s
      else if !IsOpen(s.server, s.phase.m.rotation) then Restarted(s)
      else if s.pending.Some? && s.pending.value != s.phase.m then Restarted(s)
      else s.(pending := Some(s.phase.m), phase := Noted(s.phase.m))
    case AgentSwaps(works) =>
      if !s.phase.Noted? then s
      else if s.keychain != s.phase.m.predecessor || !works then Restarted(s)
      else s.(keychain := s.phase.m.replacement, phase := Swapped(s.phase.m))
    case AgentAcknowledges(lost) =>
      if s.phase.Swapped? then
        var (v, ok) := Acknowledge(s.server, s.phase.m.replacement);
        if ok && !lost then
          s.(server := v, client := s.phase.m.replacement, phase := Confirmed(s.phase.m.rotation))
        else Restarted(s.(server := v))
      else if s.phase.Idle? && Resuming(s) then
        var (v, ok) := Acknowledge(s.server, s.client);
        if ok && !lost then s.(server := v, phase := Confirmed(s.pending.value.rotation))
        else Restarted(s.(server := v))
      else s
    case AgentClears =>
      if !s.phase.Confirmed? then s
      else s.(pending := if s.pending.Some? && s.pending.value.rotation == s.phase.rotation then None else s.pending,
              phase := Idle)
    case Restart => Restarted(s)
  }

  function Enrolled(c: nat): State {
    State(Server(map[c := Credential(true, false)], map[]), c, None, c, Idle)
  }

  ghost function Run(c: nat, steps: seq<Step>): State {
    if steps == [] then Enrolled(c) else Apply(Run(c, steps[..|steps| - 1]), steps[|steps| - 1])
  }

  // ---------------------------------------------------------------- the invariant

  /** What the status of a rotation says about its two credentials. */
  predicate RowOk(v: Server, r: nat)
    requires r in v.rotations
  {
    var row := v.rotations[r];
    && row.predecessor in v.credentials && row.replacement in v.credentials && row.predecessor != row.replacement
    && (IsLive(v, r) ==> IsActive(v, row.predecessor) && v.credentials[row.replacement] == Credential(false, false))
    && (row.status == Acknowledged ==>
          v.credentials[row.predecessor].revoked && v.credentials[row.replacement].activated)
    && (row.status == Cancelled ==> v.credentials[row.replacement] == Credential(false, true))
  }

  ghost predicate ServerOk(v: Server) {
    && (forall r :: r in v.rotations ==> RowOk(v, r))
    && (forall r, q :: IsLive(v, r) && IsLive(v, q) ==> r == q)
    && (forall r, q ::
          r in v.rotations && q in v.rotations && v.rotations[r].replacement == v.rotations[q].replacement ==> r == q)
    && exists c :: OneActive(v, c)
  }

  /** The material describes a rotation of the control plane. */
  predicate Describes(v: Server, m: Material) {
    m.rotation in v.rotations && v.rotations[m.rotation].predecessor == m.predecessor &&
    v.rotations[m.rotation].replacement == m.replacement
  }

  predicate Awaiting(v: Server, m: Material) { Describes(v, m) && v.rotations[m.rotation].status == Delivered }

  predicate Settled(v: Server, m: Material) { Describes(v, m) && v.rotations[m.rotation].status == Acknowledged }

  /** The keychain pair is active, or a delivered replacement that the spool remembers. */
  ghost predicate KeychainOk(s: State) {
    OneActive(s.server, s.keychain) ||
    (s.pending.Some? && s.pending.value.replacement == s.keychain && Awaiting(s.server, s.pending.value))
  }

  ghost predicate PhaseOk(s: State) {
    match s.phase
    case Idle => s.client == s.keychain
    case Received(m) => s.client == s.keychain == m.predecessor && Awaiting(s.server, m)
    case Noted(m) => s.client == s.keychain == m.predecessor && Awaiting(s.server, m) && s.pending == Some(m)
    case Swapped(m) => s.keychain == m.replacement && Awaiting(s.server, m) && s.pending == Some(m)
    case Confirmed(r) =>
      && s.client == s.keychain && OneActive(s.server, s.keychain)
      && s.pending.Some? && s.pending.value.rotation == r && Settled(s.server, s.pending.value)
  }

  ghost predicate Inv(s: State) {
    && ServerOk(s.server)
    && (s.pending.Some? ==>
          Describes(s.server, s.pending.value) && s.server.rotations[s.pending.value.rotation].status != Pending)
    && KeychainOk(s)
    && PhaseOk(s)
  }

  // ---------------------------------------------------------------- steps of the control plane

  lemma {:induction false} InitiateServer(v: Server, r: nat, c: nat)
    requires ServerOk(v)
    ensures var w := Initiate(v, r, c);
      && ServerOk(w) && (forall a :: OneActive(v, a) ==> OneActive(w, a))
      && forall q :: q in v.rotations ==> q in w.rotations && w.rotations[q] == v.rotations[q]
  {
    var w := Initiate(v, r, c);
    if w != v {
      var a: nat :| OneActive(v, a);
      assert w == Server(v.credentials[c := Credential(false, false)],
        v.rotations[r := Rotation(a, c, Pending, 0, true)]);
      assert forall x :: IsActive(w, x) <==> IsActive(v, x);
      assert OneActive(w, a);
      assert forall q :: IsLive(w, q) ==> q == r;
      forall q | q in w.rotations ensures RowOk(w, q) {
        assert q != r ==> RowOk(v, q);
      }
      ReplacementsDiffer(v, w, r);
    }
  }

  lemma {:induction false} ReplacementsDiffer(v: Server, w: Server, r: nat)
    requires ServerOk(v) && r !in v.rotations && r in w.rotations && w.rotations == v.rotations[r := w.rotations[r]]
    requires w.rotations[r].replacement !in v.credentials
    ensures forall p, q ::
      p in w.rotations && q in w.rotations && w.rotations[p].replacement == w.rotations[q].replacement ==> p == q
  {
    assert forall q :: q in v.rotations ==> RowOk(v, q);
  }

  lemma {:induction false} InitiateKeeps(s: State, r: nat, c: nat)
    requires Inv(s)
    ensures Inv(s.(server := Initiate(s.server, r, c)))
  {
    hide Initiate, ServerOk;
    InitiateServer(s.server, r, c);
  }

  lemma {:induction false} CancelRowKeeps(s: State, r: nat)
    requires ServerOk(s.server) && IsLive(s.server, r)
    ensures var w := CancelRow(s.server, r);
      ServerOk(w) && forall c :: OneActive(s.server, c) ==> OneActive(w, c)
  {
    var v := s.server;
    assert RowOk(v, r);
    var w := CancelRow(v, r);
    assert forall x :: x in v.credentials ==> (IsActive(w, x) <==> IsActive(v, x));
    assert forall q :: IsLive(w, q) ==> IsLive(v, q);
    forall q | q in w.rotations ensures RowOk(w, q) {
      assert RowOk(v, q);
    }
    var a :| OneActive(v, a);
    assert OneActive(w, a);
  }

  lemma {:induction false} CancelKeeps(s: State, r: nat)
    requires Inv(s)
    ensures Inv(s.(server := Cancel(s.server, r)))
  {
    if r in s.server.rotations && s.server.rotations[r].status == Pending {
      CancelRowKeeps(s, r);
    }
  }

  function DeliverRow(v: Server, r: nat): Server
    requires r in v.rotations
  {
    v.(rotations := v.rotations[r := v.rotations[r].(status := Delivered, deliveries := v.rotations[r].deliveries + 1)])
  }

  /** What an authenticated poll does when there is a live rotation. */
  lemma {:induction false} PollOfLive(v: Server, client: nat, r: nat)
    requires ServerOk(v) && IsActive(v, client) && IsLive(v, r)
    ensures v.rotations[r].replacement in v.credentials
    ensures Poll(v, client) ==
      if v.rotations[r].predecessor != client then (v, PollRefused)
      else if !v.rotations[r].open then (CancelRow(v, r), Nothing)
      else if v.rotations[r].deliveries >= MAX_DELIVERIES then (v, PollRefused)
      else (DeliverRow(v, r), Envelope(Material(r, client, v.rotations[r].replacement)))
  {
    assert RowOk(v, r);
  }

  lemma {:induction false} PollOfNone(v: Server, client: nat)
    requires !IsActive(v, client) || forall r: nat :: !IsLive(v, r)
    ensures Poll(v, client).0 == v && !Poll(v, client).1.Envelope?
  {
  }

  lemma {:induction false} PollKeeps(s: State, lost: bool)
    requires Inv(s) && s.phase.Idle? && !Resuming(s)
    ensures Inv(Apply(s, AgentPolls(lost)))
  {
    hide Poll, CancelRow, ServerOk;
    var v := s.server;
    assert OneActive(v, s.keychain);
    if r: nat :| IsLive(v, r) {
      PollOfLive(v, s.client, r);
      if v.rotations[r].predecessor == s.client {
        if !v.rotations[r].open {
          CancelRowKeeps(s, r);
          CancelRowRotations(v, r);
        } else {
          DeliverKeeps(v, r, DeliverRow(v, r));
        }
      }
    } else {
      PollOfNone(v, s.client);
    }
  }

  lemma {:induction false} CancelRowRotations(v: Server, r: nat)
    requires r in v.rotations && v.rotations[r].replacement in v.credentials
    ensures CancelRow(v, r).rotations == v.rotations[r := v.rotations[r].(status := Cancelled)]
  {
  }

  lemma {:induction false} DeliverKeeps(v: Server, r: nat, w: Server)
    requires ServerOk(v) && IsLive(v, r)
    requires w == DeliverRow(v, r)
    ensures ServerOk(w) && forall c :: OneActive(v, c) ==> OneActive(w, c)
  {
    assert forall x :: x in v.credentials ==> (IsActive(w, x) <==> IsActive(v, x));
    assert forall q :: IsLive(w, q) ==> IsLive(v, q);
    forall q | q in w.rotations ensures RowOk(w, q) {
      assert RowOk(v, q);
    }
    var a :| OneActive(v, a);
    assert OneActive(w, a);
  }

  lemma {:induction false} CloseServer(v: Server, r: nat)
    requires ServerOk(v)
    ensures var w := CloseWindow(v, r); ServerOk(w) && forall c :: OneActive(v, c) ==> OneActive(w, c)
  {
    var w := CloseWindow(v, r);
    assert forall x :: x in v.credentials ==> (IsActive(w, x) <==> IsActive(v, x));
    assert forall q :: IsLive(w, q) <==> IsLive(v, q);
    forall q | q in w.rotations ensures RowOk(w, q) {
      assert RowOk(v, q);
    }
    var a :| OneActive(v, a);
    assert OneActive(w, a);
  }

  lemma {:induction false} CloseKeeps(s: State, r: nat)
    requires Inv(s)
    ensures Inv(s.(server := CloseWindow(s.server, r)))
  {
    hide ServerOk;
    CloseServer(s.server, r);
  }

  // ---------------------------------------------------------------- steps of the agent

  /** Acknowledging a delivered rotation retires the predecessor and leaves one active credential. */
  lemma {:induction false} AcknowledgeDelivered(v: Server, m: Material)
    requires ServerOk(v) && Awaiting(v, m)
    ensures var (w, ok) := Acknowledge(v, m.replacement);
      && ok && ServerOk(w) && OneActive(w, m.replacement)
      && Describes(w, m) && w.rotations[m.rotation].status == Acknowledged
      && (forall r :: r in w.rotations <==> r in v.rotations)
      && (forall r :: r in w.rotations && r != m.rotation ==> w.rotations[r] == v.rotations[r])
  {
    assert RowOk(v, m.rotation);
    assert Issued(v, m.rotation, m.replacement);
    var (w, ok) := Acknowledge(v, m.replacement);
    var a :| OneActive(v, a);
    assert a == m.predecessor;
    var settled := v.credentials[m.replacement := Credential(true, false)][m.predecessor := Credential(true, true)];
    assert w == SetStatus(v.(credentials := settled), m.rotation, Acknowledged);
    assert OneActive(w, m.replacement);
    assert IsLive(v, m.rotation);
    assert forall q :: IsLive(w, q) ==> IsLive(v, q) && q != m.rotation;
    assert forall q :: !IsLive(w, q);
    forall q | q in w.rotations ensures RowOk(w, q) {
      assert RowOk(v, q);
    }
  }

  /** Acknowledging again changes nothing and is accepted. */
  lemma {:induction false} AcknowledgeAgain(v: Server, m: Material)
    requires ServerOk(v) && Describes(v, m) && v.rotations[m.rotation].status == Acknowledged &&
      IsActive(v, m.replacement)
    ensures Acknowledge(v, m.replacement) == (v, true)
  {
    assert Issued(v, m.rotation, m.replacement);
  }

  lemma {:induction false} AcknowledgeKeeps(s: State, lost: bool)
    requires Inv(s) && (s.phase.Swapped? || (s.phase.Idle? && Resuming(s)))
    ensures Inv(Apply(s, AgentAcknowledges(lost)))
  {
    hide Acknowledge, ServerOk;
    var m := s.pending.value;
    if Awaiting(s.server, m) {
      AcknowledgeDelivered(s.server, m);
    } else {
      ResumedAlready(s);
      AcknowledgeAgain(s.server, m);
    }
  }

  /** A replacement in the keychain that is no longer awaited was acknowledged. */
  lemma {:induction false} ResumedAlready(s: State)
    requires Inv(s) && s.phase.Idle? && Resuming(s) && !Awaiting(s.server, s.pending.value)
    ensures s.server.rotations[s.pending.value.rotation].status == Acknowledged && OneActive(s.server, s.keychain)
  {
    var m := s.pending.value;
    assert RowOk(s.server, m.rotation);
  }

  lemma {:induction false} AgentStepKeeps(s: State, step: Step)
    requires Inv(s) && (step.AgentNotes? || step.AgentSwaps? || step.AgentClears? || step.Restart?)
    ensures Inv(Apply(s, step))
  {
    hide ServerOk;
    if step.AgentClears? && s.phase.Confirmed? {
      assert OneActive(s.server, s.keychain);
    }
  }

  lemma {:induction false} KeepsInv(s: State, step: Step)
    requires Inv(s)
    ensures Inv(Apply(s, step))
  {
    hide Inv, Initiate, Cancel, CloseWindow, Poll, Acknowledge;
    match step
    case AdminInitiates(r, c) => InitiateKeeps(s, r, c);
    case AdminCancels(r) => CancelKeeps(s, r);
    case WindowCloses(r) => CloseKeeps(s, r);
    case AgentPolls(lost) => if s.phase.Idle? && !Resuming(s) { PollKeeps(s, lost); }
    case AgentAcknowledges(lost) =>
      if s.phase.Swapped? || (s.phase.Idle? && Resuming(s)) { AcknowledgeKeeps(s, lost); }
    case _ => AgentStepKeeps(s, step);
  }

  lemma {:induction false} RunKeepsInv(c: nat, steps: seq<Step>)
    ensures Inv(Run(c, steps))
  {
    hide Apply;
    if steps == [] {
      assert OneActive(Enrolled(c).server, c);
    } else {
      hide Inv;
      RunKeepsInv(c, steps[..|steps| - 1]);
      KeepsInv(Run(c, steps[..|steps| - 1]), steps[|steps| - 1]);
    }
  }

  // ---------------------------------------------------------------- what the protocol guarantees

  /** The agent is never locked out: what the keychain holds is accepted for the step it takes next. */
  lemma {:induction false} NeverLockedOut(c: nat, steps: seq<Step>)
    ensures var s := Restarted(Run(c, steps));
      if Resuming(s) then Acknowledge(s.server, s.client).1
      else IsActive(s.server, s.client)
  {
    hide Run, Acknowledge;
    RunKeepsInv(c, steps);
    var s := Restarted(Run(c, steps));
    if Resuming(s) {
      var m := s.pending.value;
      if Awaiting(s.server, m) {
        AcknowledgeDelivered(s.server, m);
      } else {
        ResumedAlready(s);
        AcknowledgeAgain(s.server, m);
      }
    }
  }

  /** Between `v` and `w`, rotation `r` became acknowledged. */
  predicate SettledBy(v: Server, w: Server, r: nat) {
    r in w.rotations && w.rotations[r].status == Acknowledged &&
      !(r in v.rotations && v.rotations[r].status == Acknowledged)
  }

  /** Only an acknowledgement by the replacement in the keychain settles a rotation. */
  lemma {:induction false} RowsChange(s: State, step: Step, r: nat)
    requires Inv(s)
    ensures var w := Apply(s, step).server;
      && (r in s.server.rotations ==> r in w.rotations)
      && (r in s.server.rotations && !IsLive(s.server, r) ==> w.rotations[r] == s.server.rotations[r])
      && (SettledBy(s.server, w, r) ==> s.keychain == w.rotations[r].replacement)
  {
    hide Poll, Acknowledge, ServerOk, CancelRow;
    var v := s.server;
    match step
    case AgentPolls(lost) =>
      if s.phase.Idle? && !Resuming(s) {
        if q: nat :| IsLive(v, q) && IsActive(v, s.client) {
          PollOfLive(v, s.client, q);
          CancelRowRotations(v, q);
        } else {
          PollOfNone(v, s.client);
        }
      }
    case AgentAcknowledges(lost) =>
      if s.phase.Swapped? || (s.phase.Idle? && Resuming(s)) {
        var m := s.pending.value;
        if Awaiting(v, m) {
          AcknowledgeDelivered(v, m);
        } else {
          ResumedAlready(s);
          AcknowledgeAgain(v, m);
        }
      }
    case AdminCancels(q) =>
      if q in v.rotations && v.rotations[q].replacement in v.credentials {
        CancelRowRotations(v, q);
      }
    case _ =>
  }

  /** A predecessor is retired only when the keychain already holds its replacement. */
  lemma {:induction false} RetiredOnlyAfterSwap(c: nat, steps: seq<Step>, step: Step, r: nat)
    ensures var s := Run(c, steps); var t := Apply(s, step);
      SettledBy(s.server, t.server, r) ==> s.keychain == t.server.rotations[r].replacement
  {
    hide Run, Apply, Inv;
    RunKeepsInv(c, steps);
    RowsChange(Run(c, steps), step, r);
  }

  predicate LeadsTo(row: Rotation, predecessor: nat, replacement: nat) {
    row.predecessor == predecessor && row.replacement == replacement
  }

  /** Only an acknowledgement ends a credential, and only for the predecessor of what it settles. */
  lemma {:induction false} ActiveEnds(s: State, step: Step, p: nat)
    requires Inv(s) && IsActive(s.server, p) && !IsActive(Apply(s, step).server, p)
    ensures exists r :: r in s.server.rotations && LeadsTo(s.server.rotations[r], p, s.keychain)
  {
    hide Poll, Acknowledge, Initiate, CancelRow;
    var v := s.server;
    OthersKeepActive(s, step, p);
    var m := s.pending.value;
    if Awaiting(v, m) {
      assert RowOk(v, m.rotation);
      assert m.predecessor == p by { var a :| OneActive(v, a); }
      assert m.rotation in v.rotations;
    } else {
      ResumedAlready(s);
      AcknowledgeAgain(v, m);
    }
  }

  lemma {:induction false} OthersKeepActive(s: State, step: Step, p: nat)
    requires Inv(s) && IsActive(s.server, p)
    ensures step.AgentAcknowledges? || IsActive(Apply(s, step).server, p)
  {
    hide Poll, Acknowledge, Initiate, CancelRow, ServerOk;
    var v := s.server;
    match step
    case AdminInitiates(r, c) =>
      InitiateServer(v, r, c);
      OnlyOne(v, p);
    case AdminCancels(r) =>
      if r in v.rotations && v.rotations[r].status == Pending {
        CancelRowKeeps(s, r);
        OnlyOne(v, p);
      }
    case WindowCloses(r) =>
      CloseServer(v, r);
      OnlyOne(v, p);
    case AgentPolls(lost) =>
      if s.phase.Idle? && !Resuming(s) {
        if q: nat :| IsLive(v, q) && IsActive(v, s.client) {
          PollOfLive(v, s.client, q);
          CancelRowKeeps(s, q);
          DeliverKeeps(v, q, DeliverRow(v, q));
          OnlyOne(v, p);
        } else {
          PollOfNone(v, s.client);
        }
      }
    case _ =>
  }

  lemma {:induction false} OnlyOne(v: Server, p: nat)
    requires ServerOk(v) && IsActive(v, p)
    ensures OneActive(v, p)
  {
    var a :| OneActive(v, a);
  }

  /** A credential stops being active only while the keychain holds the replacement of a rotation from it. */
  lemma {:induction false} CredentialEndsOnlyAfterSwap(c: nat, steps: seq<Step>, step: Step, p: nat)
    ensures var s := Run(c, steps);
      IsActive(s.server, p) && !IsActive(Apply(s, step).server, p) ==>
        exists r :: r in s.server.rotations && LeadsTo(s.server.rotations[r], p, s.keychain)
  {
    hide Run, Apply, Inv;
    RunKeepsInv(c, steps);
    var s := Run(c, steps);
    if IsActive(s.server, p) && !IsActive(Apply(s, step).server, p) {
      ActiveEnds(s, step, p);
    }
  }

  // ---------------------------------------------------------------- when it completes

  lemma {:induction false} InitiateFresh(v: Server, r: nat, c: nat, a: nat)
    requires ServerOk(v) && OneActive(v, a) && !HasLive(v) && r !in v.rotations && c !in v.credentials
    ensures Initiate(v, r, c) ==
      Server(v.credentials[c := Credential(false, false)], v.rotations[r := Rotation(a, c, Pending, 0, true)])
  {
  }

  /** Without faults, a rotation started on an agent with a clean record ends with the new pair alone active. */
  lemma {:induction false} RotationCompletes(s: State, r: nat, c: nat)
    requires Inv(s) && s.phase.Idle? && s.pending.None? && !HasLive(s.server)
    requires r !in s.server.rotations && c !in s.server.credentials
    ensures var t := Apply(Apply(Apply(Apply(Apply(Apply(s,
        AdminInitiates(r, c)), AgentPolls(false)), AgentNotes), AgentSwaps(true)), AgentAcknowledges(false)),
          AgentClears);
      t.keychain == c && OneActive(t.server, c) && t.pending.None? && t.phase.Idle? && t.client == c
  {
    hide Initiate, Poll, Acknowledge;
    var m := Material(r, s.keychain, c);
    InitiateFresh(s.server, r, c, s.keychain);
    InitiateKeeps(s, r, c);
    var s1 := Apply(s, AdminInitiates(r, c));
    PollOfLive(s1.server, s1.client, r);
    PollKeeps(s1, false);
    var s2 := Apply(s1, AgentPolls(false));
    assert s2.phase == Received(m);
    AcknowledgeDelivered(s2.server, m);
  }

  // ---------------------------------------------------------------- where it gets stuck

  /** The spool remembers a rotation that the control plane has cancelled. */
  ghost predicate Stale(s: State) {
    Inv(s) && s.pending.Some? && s.server.rotations[s.pending.value.rotation].status == Cancelled
  }

  /** How a step may change the keychain and the record. */
  lemma {:induction false} RecordChanges(s: State, step: Step)
    ensures var t := Apply(s, step);
      && (t.keychain == s.keychain || (s.phase.Noted? && t.keychain == s.phase.m.replacement && t.pending == s.pending))
      && (t.pending == s.pending || (s.phase.Received? && t.pending == Some(s.phase.m) && t.server == s.server &&
            (s.pending.None? || s.pending == t.pending)) || (s.phase.Confirmed? && t.pending == None))
  {
    hide Initiate, Cancel, CloseWindow, Poll, Acknowledge;
  }

  lemma {:induction false} StaleRecordStays(s: State, step: Step)
    requires Stale(s)
    ensures Stale(Apply(s, step)) && Apply(s, step).keychain == s.keychain && Apply(s, step).pending == s.pending
  {
    KeepsInv(s, step);
    RowsChange(s, step, s.pending.value.rotation);
    RecordChanges(s, step);
    hide Apply, ServerOk, KeychainOk;
  }

  ghost function Continue(s: State, steps: seq<Step>): State {
    if steps == [] then s else Apply(Continue(s, steps[..|steps| - 1]), steps[|steps| - 1])
  }

  /** From then on no run of any length clears the record or changes the keychain: rotation is over. */
  lemma {:induction false} StaleForever(s: State, steps: seq<Step>)
    requires Stale(s)
    ensures Continue(s, steps).keychain == s.keychain && Continue(s, steps).pending == s.pending
    ensures Stale(Continue(s, steps))
  {
    hide Stale, Apply;
    if steps != [] {
      StaleForever(s, steps[..|steps| - 1]);
      StaleRecordStays(Continue(s, steps[..|steps| - 1]), steps[|steps| - 1]);
    }
  }

  lemma {:induction false} RunSnoc(c: nat, steps: seq<Step>, step: Step)
    ensures Run(c, steps + [step]) == Apply(Run(c, steps), step)
  {
    assert (steps + [step])[..|steps|] == steps;
  }

  lemma {:induction false} InitiateFirst()
    ensures Initiate(Enrolled(0).server, 7, 1) ==
      Server(map[0 := Credential(true, false), 1 := Credential(false, false)],
        map[7 := Rotation(0, 1, Pending, 0, true)])
  {
    var v := Enrolled(0).server;
    assert OneActive(v, 0);
    assert v.credentials[1 := Credential(false, false)] ==
      map[0 := Credential(true, false), 1 := Credential(false, false)];
  }

  /** An agent with a recorded rotation and the old pair that polls after the window gets there. */
  lemma {:induction false} LateAgentGoesStale(s: State, lost: bool)
    requires Inv(s) && s.phase.Idle? && s.pending.Some? && Awaiting(s.server, s.pending.value)
    requires s.keychain != s.pending.value.replacement && !IsOpen(s.server, s.pending.value.rotation)
    ensures Stale(Apply(s, AgentPolls(lost))) && Apply(s, AgentPolls(lost)).pending == s.pending
  {
    hide Poll, CancelRow;
    KeepsInv(s, AgentPolls(lost));
    var m := s.pending.value;
    assert RowOk(s.server, m.rotation) && IsLive(s.server, m.rotation);
    PollOfLive(s.server, s.client, m.rotation);
    CancelRowRotations(s.server, m.rotation);
  }

  /** Such a run: the agent stops after noting a rotation, and is back only after its delivery window. */
  lemma {:induction false} StaleIsReachable()
    ensures Stale(Run(0, [AdminInitiates(7, 1)] + [AgentPolls(false)] + [AgentNotes] + [Restart] + [WindowCloses(7)] +
      [AgentPolls(false)]))
  {
    hide Run, Initiate, Poll, Inv, CancelRow, Stale;
    var a := [AdminInitiates(7, 1)];
    var b := a + [AgentPolls(false)];
    var d := b + [AgentNotes] + [Restart] + [WindowCloses(7)];
    RunSnoc(0, [], AdminInitiates(7, 1));
    RunSnoc(0, a, AgentPolls(false));
    RunSnoc(0, b, AgentNotes);
    RunSnoc(0, b + [AgentNotes], Restart);
    RunSnoc(0, b + [AgentNotes] + [Restart], WindowCloses(7));
    RunSnoc(0, d, AgentPolls(false));
    assert [] + [AdminInitiates(7, 1)] == a;
    assert Run(0, []) == Enrolled(0) by { RunOfNothing(0); }
    InitiateFirst();
    RunKeepsInv(0, a);
    RunKeepsInv(0, d);
    assert ServerOk(Run(0, a).server) by { InvServer(Run(0, a)); }
    hide ServerOk;
    PollOfLive(Run(0, a).server, 0, 7);
    LateAgentGoesStale(Run(0, d), false);
  }

  lemma {:induction false} RunOfNothing(c: nat) ensures Run(c, []) == Enrolled(c) {}

  lemma {:induction false} InvServer(s: State) requires Inv(s) ensures ServerOk(s.server) {}

  // ---------------------------------------------------------------- exactly when the record can be cleared

  /** The record of an acknowledged rotation is that of the pair in the keychain. */
  ghost predicate RecordOk(s: State) {
    s.pending.Some? && Settled(s.server, s.pending.value) ==> s.keychain == s.pending.value.replacement
  }

  lemma {:induction false} KeepsRecord(s: State, step: Step)
    requires Inv(s) && RecordOk(s)
    ensures RecordOk(Apply(s, step))
  {
    hide Apply, ServerOk, KeychainOk;
    RecordChanges(s, step);
    if s.pending.Some? {
      RowsChange(s, step, s.pending.value.rotation);
    }
  }

  lemma {:induction false} RunKeepsRecord(c: nat, steps: seq<Step>)
    ensures Inv(Run(c, steps)) && RecordOk(Run(c, steps))
  {
    hide Apply, Inv;
    RunKeepsInv(c, steps);
    if steps != [] {
      var n := |steps| - 1;
      RunKeepsRecord(c, steps[..n]);
      KeepsRecord(Run(c, steps[..n]), steps[n]);
    }
  }

  /**
  The record can still be cleared: there is none, its rotation is acknowledged, or it is delivered and its
  replacement is in the keychain or about to be, or its window is open and the envelope is received or may
  be delivered again.
  */
  ghost predicate Recoverable(s: State) {
    s.pending.None? || Settled(s.server, s.pending.value) ||
    (Awaiting(s.server, s.pending.value) &&
     (s.keychain == s.pending.value.replacement || s.phase.Noted? ||
      (IsOpen(s.server, s.pending.value.rotation) &&
       (s.phase.Received? || s.server.rotations[s.pending.value.rotation].deliveries < MAX_DELIVERIES))))
  }

  /** With the replacement in the keychain, acknowledging and clearing is all that is left. */
  lemma {:induction false} AcknowledgingClears(s: State)
    requires Inv(s) && s.pending.Some? && s.keychain == s.pending.value.replacement
    requires Settled(s.server, s.pending.value) || Awaiting(s.server, s.pending.value)
    ensures var t := Apply(Apply(Apply(s, Restart), AgentAcknowledges(false)), AgentClears);
      t.pending.None? && t.keychain == s.keychain && OneActive(t.server, t.keychain)
  {
    hide Acknowledge, ServerOk;
    var m := s.pending.value;
    var t := Apply(s, Restart);
    KeepsInv(s, Restart);
    assert Resuming(t);
    if Awaiting(t.server, m) {
      AcknowledgeDelivered(t.server, m);
    } else {
      ResumedAlready(t);
      AcknowledgeAgain(t.server, m);
    }
  }

  /** The replacement of a recorded rotation that is still awaited can be brought into the keychain. */
  lemma {:induction false} SwapFollows(s: State) returns (more: seq<Step>)
    requires Inv(s) && s.pending.Some? && Awaiting(s.server, s.pending.value) && Recoverable(s)
    ensures var t := Continue(s, more);
      Inv(t) && t.pending == s.pending && Awaiting(t.server, t.pending.value) &&
        t.keychain == t.pending.value.replacement
  {
    var m := s.pending.value;
    if s.keychain == m.replacement {
      more := [];
    } else if s.phase.Noted? {
      NotedSwaps(s);
      more := [AgentSwaps(true)];
      ContinueSnoc(s, [], AgentSwaps(true));
    } else if s.phase.Received? {
      ReceivedNotes(s);
      NotedSwaps(Apply(s, AgentNotes));
      more := [] + [AgentNotes] + [AgentSwaps(true)];
      ContinueSnoc(s, [], AgentNotes);
      ContinueSnoc(s, [] + [AgentNotes], AgentSwaps(true));
    } else {
      var t := Apply(s, Restart);
      KeepsInv(s, Restart);
      PollReceives(t);
      var u := Apply(t, AgentPolls(false));
      ReceivedNotes(u);
      NotedSwaps(Apply(u, AgentNotes));
      more := [] + [Restart] + [AgentPolls(false)] + [AgentNotes] + [AgentSwaps(true)];
      hide Apply, Inv;
      ContinueSnoc(s, [], Restart);
      ContinueSnoc(s, [] + [Restart], AgentPolls(false));
      ContinueSnoc(s, [] + [Restart] + [AgentPolls(false)], AgentNotes);
      ContinueSnoc(s, [] + [Restart] + [AgentPolls(false)] + [AgentNotes], AgentSwaps(true));
    }
  }

  lemma {:induction false} NotedSwaps(s: State)
    requires Inv(s) && s.phase.Noted?
    ensures var t := Apply(s, AgentSwaps(true));
      Inv(t) && t.pending == s.pending && Awaiting(t.server, t.pending.value) &&
        t.keychain == t.pending.value.replacement
  {
    KeepsInv(s, AgentSwaps(true));
  }

  lemma {:induction false} ReceivedNotes(s: State)
    requires Inv(s) && s.phase.Received? && s.pending.Some? && Awaiting(s.server, s.pending.value)
    requires IsOpen(s.server, s.pending.value.rotation)
    ensures var t := Apply(s, AgentNotes); Inv(t) && t.pending == s.pending && t.phase.Noted?
  {
    KeepsInv(s, AgentNotes);
    assert IsLive(s.server, s.pending.value.rotation) && IsLive(s.server, s.phase.m.rotation);
  }

  lemma {:induction false} PollReceives(s: State)
    requires Inv(s) && s.phase.Idle? && s.pending.Some? && Awaiting(s.server, s.pending.value)
    requires s.keychain != s.pending.value.replacement && IsOpen(s.server, s.pending.value.rotation)
    requires s.server.rotations[s.pending.value.rotation].deliveries < MAX_DELIVERIES
    ensures var t := Apply(s, AgentPolls(false));
      && Inv(t) && t.pending == s.pending && t.phase.Received? && Awaiting(t.server, t.pending.value)
      && IsOpen(t.server, t.pending.value.rotation)
  {
    hide Poll;
    KeepsInv(s, AgentPolls(false));
    var m := s.pending.value;
    assert RowOk(s.server, m.rotation) && IsLive(s.server, m.rotation);
    PollOfLive(s.server, s.client, m.rotation);
  }

  /**
  The old pair is in the keychain and no usable copy of the envelope will come: the window is over, or it
  was delivered as often as allowed and the agent holds none.
  */
  ghost predicate Exhausted(s: State) {
    && Inv(s) && s.pending.Some? && Awaiting(s.server, s.pending.value) && s.keychain != s.pending.value.replacement &&
      !s.phase.Noted?
    && (IsOpen(s.server, s.pending.value.rotation) ==>
          !s.phase.Received? && s.server.rotations[s.pending.value.rotation].deliveries >= MAX_DELIVERIES)
  }

  /** The record can only become that of a cancelled rotation, and never goes away. */
  lemma {:induction false} ExhaustedStays(s: State, step: Step)
    requires Exhausted(s)
    ensures var t := Apply(s, step); (Exhausted(t) || Stale(t)) && t.pending == s.pending
  {
    KeepsInv(s, step);
    var v, m := s.server, s.pending.value;
    assert RowOk(v, m.rotation) && IsLive(v, m.rotation) && HasLive(v);
    assert forall r :: IsLive(v, r) ==> r == m.rotation;
    hide ServerOk, KeychainOk;
    if step.AgentPolls? {
      ExhaustedPolls(s, step.lost);
    } else {
      hide Poll, Acknowledge, CancelRow;
    }
  }

  lemma {:induction false} ExhaustedPolls(s: State, lost: bool)
    requires Exhausted(s)
    ensures var t := Apply(s, AgentPolls(lost)); (Exhausted(t) || Stale(t)) && t.pending == s.pending
  {
    hide Poll, CancelRow;
    KeepsInv(s, AgentPolls(lost));
    var m := s.pending.value;
    if s.phase.Idle? {
      if IsOpen(s.server, m.rotation) {
        assert RowOk(s.server, m.rotation);
        PollOfLive(s.server, s.client, m.rotation);
      } else {
        LateAgentGoesStale(s, lost);
      }
    }
  }

  lemma {:induction false} StuckForever(s: State, more: seq<Step>)
    requires Exhausted(s) || Stale(s)
    ensures var t := Continue(s, more); (Exhausted(t) || Stale(t)) && t.pending == s.pending
  {
    hide Stale, Exhausted, Apply;
    if more != [] {
      var n := |more| - 1;
      StuckForever(s, more[..n]);
      var t := Continue(s, more[..n]);
      if Stale(t) {
        StaleRecordStays(t, more[n]);
      } else {
        ExhaustedStays(t, more[n]);
      }
    }
  }

  lemma {:induction false} ContinueSnoc(s: State, steps: seq<Step>, step: Step)
    ensures Continue(s, steps + [step]) == Apply(Continue(s, steps), step)
  {
    assert (steps + [step])[..|steps|] == steps;
  }

  lemma {:induction false} RunContinues(c: nat, steps: seq<Step>, more: seq<Step>)
    ensures Run(c, steps + more) == Continue(Run(c, steps), more)
  {
    hide Apply;
    if more == [] {
      assert steps + more == steps;
    } else {
      var n := |more| - 1;
      RunContinues(c, steps, more[..n]);
      assert steps + more == (steps + more[..n]) + [more[n]];
      RunSnoc(c, steps + more[..n], more[n]);
    }
  }

  lemma {:induction false} RecoverableClears(s: State) returns (more: seq<Step>)
    requires Inv(s) && RecordOk(s) && Recoverable(s)
    ensures Continue(s, more).pending.None?
    ensures s.pending.Some? ==>
      Continue(s, more).keychain == s.pending.value.replacement &&
        OneActive(Continue(s, more).server, Continue(s, more).keychain)
  {
    hide Inv, Apply;
    if s.pending.None? {
      more := [];
    } else {
      var first := [];
      if Awaiting(s.server, s.pending.value) {
        first := SwapFollows(s);
      }
      var t := Continue(s, first);
      AcknowledgingClears(t);
      more := first + [Restart] + [AgentAcknowledges(false)] + [AgentClears];
      ContinueSnoc(s, first, Restart);
      ContinueSnoc(s, first + [Restart], AgentAcknowledges(false));
      ContinueSnoc(s, first + [Restart] + [AgentAcknowledges(false)], AgentClears);
    }
  }

  lemma {:induction false} OtherwiseStuck(s: State)
    requires Inv(s) && !Recoverable(s)
    ensures s.pending.Some? && (Exhausted(s) || Stale(s))
  {
    assert RowOk(s.server, s.pending.value.rotation);
  }

  /** The recorded rotation is over and done: its replacement is in the keychain and the only active credential. */
  ghost predicate Rotated(s: State, m: Material) {
    s.pending.None? && s.keychain == m.replacement && OneActive(s.server, s.keychain)
  }

  /**
  In every run: some continuation ends without a record exactly if the record is recoverable, and then some
  continuation completes the recorded rotation.
  */
  lemma {:induction false} RecordClearsExactly(c: nat, steps: seq<Step>)
    ensures (exists more :: Run(c, steps + more).pending.None?) <==> Recoverable(Run(c, steps))
    ensures var s := Run(c, steps);
      s.pending.Some? && Recoverable(s) ==> exists more :: Rotated(Run(c, steps + more), s.pending.value)
  {
    hide Run, Inv, RecordOk, Recoverable, Exhausted, Stale;
    RunKeepsRecord(c, steps);
    var s := Run(c, steps);
    if Recoverable(s) {
      var more := RecoverableClears(s);
      RunContinues(c, steps, more);
      assert Run(c, steps + more).pending.None?;
      assert s.pending.Some? ==> Rotated(Run(c, steps + more), s.pending.value);
    } else {
      OtherwiseStuck(s);
      forall more ensures Run(c, steps + more).pending.Some? {
        StuckForever(s, more);
        RunContinues(c, steps, more);
      }
    }
  }

  /** An administrator's cancellation takes effect exactly before the first delivery, and revokes the replacement. */
  lemma {:induction false} CancelsByName(s: State, r: nat)
    requires Inv(s)
    ensures var t := Apply(s, AdminCancels(r)); var v := s.server;
      if r in v.rotations && v.rotations[r].status == Pending then
        && t.server.rotations == v.rotations[r := v.rotations[r].(status := Cancelled)]
        && t.server.credentials == v.credentials[v.rotations[r].replacement := Credential(false, true)]
      else t == s
  {
    if r in s.server.rotations {
      assert RowOk(s.server, r);
    }
  }

  // ---------------------------------------------------------------- deliveries

  ghost predicate FewDeliveries(v: Server) { forall r :: r in v.rotations ==> v.rotations[r].deliveries <= 10 }

  lemma {:induction false} KeepsFew(s: State, step: Step)
    requires Inv(s) && FewDeliveries(s.server)
    ensures FewDeliveries(Apply(s, step).server)
  {
    var v := s.server;
    hide ServerOk, KeychainOk, PhaseOk;
    if step.AgentPolls? && s.phase.Idle? && !Resuming(s) {
      hide Poll, CancelRow;
      if q: nat :| IsLive(v, q) && IsActive(v, s.client) {
        PollOfLive(v, s.client, q);
        CancelRowRotations(v, q);
      } else {
        PollOfNone(v, s.client);
      }
    } else {
      hide Poll;
    }
  }

  /** In every run, no envelope is delivered more than ten times. */
  lemma {:induction false} DeliveredAtMostTenTimes(c: nat, steps: seq<Step>)
    ensures FewDeliveries(Run(c, steps).server)
  {
    hide Apply, Inv;
    if steps != [] {
      var n := |steps| - 1;
      DeliveredAtMostTenTimes(c, steps[..n]);
      RunKeepsInv(c, steps[..n]);
      KeepsFew(Run(c, steps[..n]), steps[n]);
    }
  }
}
