/**
The HMAC-chained audit log of the standalone appliance.

A MAC is modelled as the term that was authenticated: equal MACs authenticate equal material,
entry and checkpoint material never coincide, and text that was not produced with the audit key
is `Foreign`.  Rows are what the database stores; nothing is assumed about the rows that `Verify`
reads except where a lemma says so.
*/
module AuditChain {
  import opened Results

  /** The stored payload text, by what `json.loads` makes of it. */
  datatype Payload = ObjectText(text: string) | OtherJson(text: string) | NotJson(text: string)

  datatype Content = Content(
    tenant: string, auditId: string, action: string, actorType: string, actorId: string,
    resourceType: string, resourceId: string, payload: Payload, createdAt: string)

  datatype Mac =
    | EntryMac(content: Content, previous: Option<Mac>)
    | CheckpointMac(id: string, tenant: string, through: int, terminal: Mac, createdAt: string)
    | Foreign(text: string)

  datatype Entry = Entry(sequence: int, content: Content, previous: Option<Mac>, mac: Mac)

  datatype Checkpoint = Checkpoint(
    id: string, tenant: string, through: int, terminal: Mac, signature: Mac, createdAt: string)

  function Sign(c: Checkpoint): Mac { CheckpointMac(c.id, c.tenant, c.through, c.terminal, c.createdAt) }

  // ---------------------------------------------------------------- honest histories

  /** One append: the entry row and the checkpoint row it inserts. */
  datatype Issue = Issue(entry: Entry, checkpoint: Checkpoint)

  /** The appends of one tenant, in order. */
  function Of(h: seq<Issue>, tenant: string): (r: seq<Issue>)
    ensures forall x :: x in r ==> x in h && x.entry.content.tenant == tenant
    ensures forall x :: x in h && x.entry.content.tenant == tenant ==> x in r
  {
    if h == [] then [] else
    var x := h[|h| - 1];
    Of(h[..|h| - 1], tenant) + if x.entry.content.tenant == tenant then [x] else []
  }

  function Terminal(h: seq<Issue>, tenant: string): Option<Mac> {
    var own := Of(h, tenant);
    if own == [] then None else Some(own[|own| - 1].entry.mac)
  }

  /** The last append decides the terminal of its own tenant and of no other. */
  lemma {:induction false} TerminalStep(h: seq<Issue>, n: nat, tenant: string)
    requires n < |h|
    ensures Terminal(h[..n + 1], tenant) ==
      if h[n].entry.content.tenant == tenant then Some(h[n].entry.mac) else Terminal(h[..n], tenant)
  {
    assert h[..n + 1][..n] == h[..n];
  }

  lemma {:induction false} NoTerminal(tenant: string) ensures Terminal([], tenant) == None {}

  /** The rows that an append to the history `h` may insert. */
  predicate Made(h: seq<Issue>, x: Issue) {
    var e, c := x.entry, x.checkpoint;
    && e.content.payload.ObjectText?
    && e.previous == Terminal(h, e.content.tenant)
    && e.mac == EntryMac(e.content, e.previous)
    && c == Checkpoint(c.id, e.content.tenant, e.sequence, e.mac, Sign(c), e.content.createdAt)
    && (forall y :: y in h ==> y.entry.sequence < e.sequence && y.checkpoint.id != c.id)
  }

  predicate Honest(h: seq<Issue>) {
    h == [] || (Honest(h[..|h| - 1]) && Made(h[..|h| - 1], h[|h| - 1]))
  }

  // ---------------------------------------------------------------- append

  datatype AppendError = InvalidField | PayloadNotObject | PayloadTooLarge

  function Utf8Length(s: string): nat {
    if s == "" then 0 else
    var c := s[0] as int;
    (if c < 0x80 then 1 else if c < 0x800 then 2 else if c < 0x1_0000 then 3 else 4) + Utf8Length(s[1..])
  }

  predicate BoundedField(s: string) { 0 < |s| <= 256 }

  function Fields(c: Content): seq<string> {
    [c.tenant, c.action, c.actorType, c.actorId, c.resourceType, c.resourceId]
  }

  lemma {:induction false} FieldsAreBounded(c: Content)
    ensures Admission(c) == Some(InvalidField) <==> exists f :: f in Fields(c) && (f == "" || |f| > 256)
  {
    var fs := Fields(c);
    assert fs[0] in fs && fs[1] in fs && fs[2] in fs && fs[3] in fs && fs[4] in fs && fs[5] in fs;
  }

  /** ASCII text has as many bytes as characters, and text adds up. */
  lemma {:induction false} Utf8LengthAdds(a: string, b: string)
    ensures Utf8Length(a + b) == Utf8Length(a) + Utf8Length(b)
    ensures (forall i :: 0 <= i < |a| ==> a[i] < '\U{80}') ==> Utf8Length(a) == |a|
    ensures |a| <= Utf8Length(a) <= 4 * |a|
  {
    if a == "" {
      assert a + b == b;
    } else {
      assert (a + b)[1..] == a[1..] + b;
      Utf8LengthAdds(a[1..], b);
    }
  }

  function Admission(c: Content): Option<AppendError> {
    if !(BoundedField(c.tenant) && BoundedField(c.action) && BoundedField(c.actorType) &&
         BoundedField(c.actorId) && BoundedField(c.resourceType) && BoundedField(c.resourceId)) then
      Some(InvalidField)
    else if !c.payload.ObjectText? then Some(PayloadNotObject)
    else if Utf8Length(c.payload.text) > 65_536 then Some(PayloadTooLarge)
    else None
  }

  class AuditLog {
    var entries: seq<Entry>
    var checkpoints: seq<Checkpoint>
    var lastSequence: nat
    ghost var history: seq<Issue>

    ghost predicate Valid()
      reads this
    {
      && Honest(history)
      && |entries| == |checkpoints| == |history|
      && (forall i :: 0 <= i < |history| ==> history[i] == Issue(entries[i], checkpoints[i]))
      && (forall x :: x in history ==> x.entry.sequence <= lastSequence)
    }

    constructor ()
      ensures Valid() && history == []
    {
      entries, checkpoints, lastSequence, history := [], [], 0, [];
    }

    /** `SELECT integrity_hmac ... ORDER BY sequence DESC LIMIT 1` */
    method PreviousMac(tenant: string) returns (r: Option<Mac>)
      requires Valid()
      ensures r == Terminal(history, tenant)
    {
      hide Terminal, Honest;
      var i := |entries|;
      assert history[..i] == history;
      while i > 0
        invariant 0 <= i <= |entries|
        invariant Terminal(history, tenant) == Terminal(history[..i], tenant)
      {
        i := i - 1;
        TerminalStep(history, i, tenant);
        if entries[i].content.tenant == tenant {
          return Some(entries[i].mac);
        }
      }
      assert Terminal(history[..0], tenant) == None by { NoTerminal(tenant); }
      return None;
    }

    /** `append`: one entry and its checkpoint, or an error and no row. */
    method Append(content: Content, checkpointId: string) returns (r: Result<Entry, AppendError>)
      requires Valid()
      requires forall x :: x in history ==> x.checkpoint.id != checkpointId
      modifies this
      ensures Valid()
      ensures r.Err? <==> Admission(content).Some?
      ensures r.Err? ==> r.error == Admission(content).value && history == old(history)
      ensures r == Err(InvalidField) <==>
        exists f :: f in Fields(content) && (f == "" || |f| > 256)
      ensures r == Err(PayloadNotObject) ==> !content.payload.ObjectText?
      ensures r == Err(PayloadTooLarge) ==> content.payload.ObjectText? && Utf8Length(content.payload.text) > 64 * 1024
      ensures r.Ok? ==> content.payload.ObjectText? && Utf8Length(content.payload.text) <= 64 * 1024
      ensures r.Ok? ==> |history| == |old(history)| + 1 && history[..|old(history)|] == old(history)
      ensures r.Ok? ==> r.value.content == content && r.value == history[|old(history)|].entry &&
                        history[|old(history)|].checkpoint.id == checkpointId
    {
      hide Of, Honest, Made, Terminal, Fields, Utf8Length;
      FieldsAreBounded(content);
      var refusal := Admission(content);
      if refusal.Some? {
        return Err(refusal.value);
      }
      var previous := PreviousMac(content.tenant);
      var mac := EntryMac(content, previous);
      var sequence := lastSequence + 1;
      var entry := Entry(sequence, content, previous, mac);
      var signature := CheckpointMac(checkpointId, content.tenant, sequence, mac, content.createdAt);
      var checkpoint := Checkpoint(checkpointId, content.tenant, sequence, mac, signature, content.createdAt);
      entries := entries + [entry];
      checkpoints := checkpoints + [checkpoint];
      lastSequence := sequence;
      IssueIsMade(history, entry, checkpoint);
      history := history + [Issue(entry, checkpoint)];
      return Ok(entry);
    }
  }

  lemma {:induction false} IssueIsMade(h: seq<Issue>, e: Entry, c: Checkpoint)
    requires Honest(h) && e.content.payload.ObjectText? && e.previous == Terminal(h, e.content.tenant)
    requires e.mac == EntryMac(e.content, e.previous)
    requires c == Checkpoint(c.id, e.content.tenant, e.sequence, e.mac, Sign(c), e.content.createdAt)
    requires forall y :: y in h ==> y.entry.sequence < e.sequence && y.checkpoint.id != c.id
    ensures Honest(h + [Issue(e, c)])
  {
    hide Terminal;
    var more := h + [Issue(e, c)];
    assert more[..|more| - 1] == h;
  }

  // ---------------------------------------------------------------- verify

  datatype Finding =
    | PayloadIsNotJson | PayloadIsNotObject | ChainLinkMismatch | EntryHmacMismatch
    | CheckpointCount | CheckpointUnreferenced | CheckpointHmacMismatch

  datatype Verification =
    | Valid(entriesChecked: nat, checkpointsChecked: nat, terminal: Option<Mac>)
    | Invalid(entriesChecked: nat, checkpointsChecked: nat, terminal: Option<Mac>,
              failureSequence: Option<int>, finding: Finding)

  function Link(rows: seq<Entry>, i: nat): Option<Mac>
    requires i <= |rows|
  {
    if i == 0 then None else Some(rows[i - 1].mac)
  }

  predicate EntryOk(rows: seq<Entry>, i: nat)
    requires i < |rows|
  {
    && rows[i].content.payload.ObjectText?
    && rows[i].previous == Link(rows, i)
    && rows[i].mac == EntryMac(rows[i].content, rows[i].previous)
  }

  /** The MAC recorded under each sequence number; a repeated number keeps its last row. */
  function BySequence(rows: seq<Entry>): map<int, Mac> {
    if rows == [] then map[] else
    var last := rows[|rows| - 1];
    BySequence(rows[..|rows| - 1])[last.sequence := last.mac]
  }

  predicate CheckpointOk(rows: seq<Entry>, c: Checkpoint) {
    && c.through in BySequence(rows)
    && BySequence(rows)[c.through] == c.terminal
    && c.signature == Sign(c)
  }

  predicate Accepts(rows: seq<Entry>, checks: seq<Checkpoint>) {
    && (forall i :: 0 <= i < |rows| ==> EntryOk(rows, i))
    && |checks| == |rows|
    && (forall k :: 0 <= k < |checks| ==> CheckpointOk(rows, checks[k]))
  }

  /** `verify`: accepts exactly such tables, and otherwise reports the first offending row. */
  method Verify(rows: seq<Entry>, checks: seq<Checkpoint>) returns (v: Verification)
    ensures v.Valid? <==> Accepts(rows, checks)
    ensures v.Valid? ==> v == Valid(|rows|, |checks|, Link(rows, |rows|))
    ensures v.Invalid? && v.finding in {PayloadIsNotJson, PayloadIsNotObject, ChainLinkMismatch, EntryHmacMismatch} ==>
      var i := v.entriesChecked;
      && i < |rows| && !EntryOk(rows, i) && (forall j :: 0 <= j < i ==> EntryOk(rows, j))
      && v.failureSequence == Some(rows[i].sequence) && v.terminal == Link(rows, i)
    ensures v.Invalid? && v.finding in {CheckpointUnreferenced, CheckpointHmacMismatch} ==>
      var k := v.checkpointsChecked;
      && k < |checks| && !CheckpointOk(rows, checks[k]) && (forall j :: 0 <= j < k ==> CheckpointOk(rows, checks[j]))
      && v.failureSequence == Some(checks[k].through)
      && (forall j :: 0 <= j < |rows| ==> EntryOk(rows, j)) && |checks| == |rows| && v.entriesChecked == |rows|
    ensures v.Invalid? && v.finding == CheckpointCount ==>
      (forall j :: 0 <= j < |rows| ==> EntryOk(rows, j)) && |checks| != |rows| && v.entriesChecked == |rows|
  {
    var previous: Option<Mac> := None;
    var bySequence: map<int, Mac> := map[];
    for index := 0 to |rows|
      invariant previous == Link(rows, index)
      invariant bySequence == BySequence(rows[..index])
      invariant forall j :: 0 <= j < index ==> EntryOk(rows, j)
    {
      var row := rows[index];
      if row.content.payload.NotJson? {
        assert !EntryOk(rows, index);
        return Invalid(index, 0, previous, Some(row.sequence), PayloadIsNotJson);
      }
      if !row.content.payload.ObjectText? {
        assert !EntryOk(rows, index);
        return Invalid(index, 0, previous, Some(row.sequence), PayloadIsNotObject);
      }
      if row.previous != previous {
        assert !EntryOk(rows, index);
        return Invalid(index, 0, previous, Some(row.sequence), ChainLinkMismatch);
      }
      if row.mac != EntryMac(row.content, previous) {
        assert !EntryOk(rows, index);
        return Invalid(index, 0, previous, Some(row.sequence), EntryHmacMismatch);
      }
      assert rows[..index + 1][..index] == rows[..index];
      bySequence := bySequence[row.sequence := row.mac];
      previous := Some(row.mac);
    }
    assert rows[..|rows|] == rows;
    if |checks| != |rows| {
      return Invalid(|rows|, 0, previous, None, CheckpointCount);
    }
    for index := 0 to |checks|
      invariant forall j :: 0 <= j < index ==> CheckpointOk(rows, checks[j])
    {
      var c := checks[index];
      if c.through !in bySequence || bySequence[c.through] != c.terminal {
        return Invalid(|rows|, index, previous, Some(c.through), CheckpointUnreferenced);
      }
      if c.signature != CheckpointMac(c.id, c.tenant, c.through, c.terminal, c.createdAt) {
        return Invalid(|rows|, index, previous, Some(c.through), CheckpointHmacMismatch);
      }
    }
    return Valid(|rows|, |checks|, previous);
  }

  // ---------------------------------------------------------------- one tenant's chain

  function Entries(xs: seq<Issue>): seq<Entry> { seq(|xs|, i requires 0 <= i < |xs| => xs[i].entry) }

  function Checkpoints(xs: seq<Issue>): seq<Checkpoint> { seq(|xs|, i requires 0 <= i < |xs| => xs[i].checkpoint) }

  /** The append at position `k` of one tenant continues the chain. */
  predicate Chained(own: seq<Issue>, tenant: string, k: nat)
    requires k < |own|
  {
    var e, c := own[k].entry, own[k].checkpoint;
    && e.content.tenant == tenant && e.content.payload.ObjectText?
    && e.previous == Link(Entries(own), k)
    && e.mac == EntryMac(e.content, e.previous)
    && c == Checkpoint(c.id, tenant, e.sequence, e.mac, Sign(c), e.content.createdAt)
  }

  /** The first append has a smaller sequence number and another checkpoint. */
  predicate Before(x: Issue, y: Issue) {
    x.entry.sequence < y.entry.sequence && x.checkpoint.id != y.checkpoint.id
  }

  /** What the appends of one tenant look like in an honest history. */
  ghost predicate Chain(own: seq<Issue>, tenant: string) {
    && (forall k :: 0 <= k < |own| ==> Chained(own, tenant, k))
    && (forall j, k :: 0 <= j < k < |own| ==> Before(own[j], own[k]))
  }

  lemma {:induction false} ChainGrows(own: seq<Issue>, tenant: string, x: Issue)
    requires Chain(own, tenant) && (forall y :: y in own ==> Before(y, x))
    requires Chained(own + [x], tenant, |own|)
    ensures Chain(own + [x], tenant)
  {
    var longer := own + [x];
    forall k | 0 <= k < |longer| ensures Chained(longer, tenant, k) {
      if k < |own| {
        assert Chained(own, tenant, k);
      }
    }
  }

  lemma {:induction false} NewestIsChained(h: seq<Issue>, x: Issue, tenant: string)
    requires Made(h, x) && x.entry.content.tenant == tenant
    ensures Chained(Of(h, tenant) + [x], tenant, |Of(h, tenant)|)
    ensures forall y :: y in Of(h, tenant) ==> Before(y, x)
  {
    var own := Of(h, tenant);
    assert own != [] ==> Entries(own + [x])[|own| - 1] == own[|own| - 1].entry;
  }

  lemma {:induction false} OfStep(h: seq<Issue>, tenant: string)
    requires h != []
    ensures var x := h[|h| - 1];
      Of(h, tenant) == Of(h[..|h| - 1], tenant) + if x.entry.content.tenant == tenant then [x] else []
  {
  }

  lemma {:induction false} HonestChain(h: seq<Issue>, tenant: string)
    requires Honest(h)
    ensures Chain(Of(h, tenant), tenant)
  {
    hide Of, Made, Chain;
    if h == [] {
      NoChain(tenant);
    } else {
      var prior, x := h[..|h| - 1], h[|h| - 1];
      HonestChain(prior, tenant);
      OfStep(h, tenant);
      if x.entry.content.tenant == tenant {
        NewestIsChained(prior, x, tenant);
        ChainGrows(Of(prior, tenant), tenant, x);
      } else {
        assert Of(prior, tenant) + [] == Of(prior, tenant);
      }
    }
  }

  lemma {:induction false} NoChain(tenant: string) ensures Chain(Of([], tenant), tenant) {}

  /** How many entries a MAC has behind it; in an honest chain, its position. */
  function Depth(m: Mac): nat {
    if m.EntryMac? && m.previous.Some? then 1 + Depth(m.previous.value) else 0
  }

  lemma {:induction false} DepthIsPosition(own: seq<Issue>, tenant: string, k: nat)
    requires Chain(own, tenant) && k < |own|
    ensures Depth(own[k].entry.mac) == k
  {
    assert Chained(own, tenant, k);
    if k > 0 {
      DepthIsPosition(own, tenant, k - 1);
    }
  }

  lemma {:induction false} DepthOfRow(rows: seq<Entry>, i: nat)
    requires i < |rows| && forall j :: 0 <= j <= i ==> EntryOk(rows, j)
    ensures Depth(rows[i].mac) == i
  {
    assert EntryOk(rows, i);
    if i > 0 {
      DepthOfRow(rows, i - 1);
    }
  }

  // ---------------------------------------------------------------- what verify establishes

  /** The MAC values that exist: those that some append issued, and text made without the key. */
  ghost predicate Available(h: seq<Issue>, m: Mac) {
    m.Foreign? || exists x :: x in h && (m == x.entry.mac || m == x.checkpoint.signature)
  }

  predicate Follows(c: Checkpoint, d: Checkpoint) { c.through <= d.through && c.id != d.id }

  /** What the two queries of `verify` return for a tenant, over tables anyone may have rewritten. */
  ghost predicate Queried(h: seq<Issue>, tenant: string, rows: seq<Entry>, checks: seq<Checkpoint>) {
    && (forall r :: r in rows ==> r.content.tenant == tenant && Available(h, r.mac))
    && (forall i, j :: 0 <= i < j < |rows| ==> rows[i].sequence < rows[j].sequence)
    && (forall c :: c in checks ==> c.tenant == tenant && Available(h, c.signature))
    && (forall i, j :: 0 <= i < j < |checks| ==> Follows(checks[i], checks[j]))
  }

  /** A MAC over an entry of this tenant that exists was issued at its own depth. */
  lemma {:induction false} IssuedEntry(h: seq<Issue>, tenant: string, m: Mac)
    requires Honest(h) && Available(h, m) && m.EntryMac? && m.content.tenant == tenant
    ensures Depth(m) < |Of(h, tenant)| && Of(h, tenant)[Depth(m)].entry.mac == m
  {
    hide Honest;
    var own := Of(h, tenant);
    var x :| x in h && (m == x.entry.mac || m == x.checkpoint.signature);
    IssueShape(h, x);
    assert x in own;
    var k :| 0 <= k < |own| && own[k] == x;
    HonestChain(h, tenant);
    DepthIsPosition(own, tenant, k);
  }

  /** A checkpoint MAC of this tenant that exists signs the checkpoint of one of its appends. */
  lemma {:induction false} IssuedCheckpoint(h: seq<Issue>, tenant: string, m: Mac) returns (k: nat)
    requires Honest(h) && Available(h, m) && m.CheckpointMac? && m.tenant == tenant
    ensures k < |Of(h, tenant)| && Of(h, tenant)[k].checkpoint.signature == m
  {
    hide Honest;
    var own := Of(h, tenant);
    var x :| x in h && (m == x.entry.mac || m == x.checkpoint.signature);
    IssueShape(h, x);
    assert x in own;
    k :| 0 <= k < |own| && own[k] == x;
  }

  lemma {:induction false} IssueShape(h: seq<Issue>, x: Issue)
    requires Honest(h) && x in h
    ensures x.entry.mac == EntryMac(x.entry.content, x.entry.previous)
    ensures x.checkpoint.signature == Sign(x.checkpoint) && x.checkpoint.tenant == x.entry.content.tenant
  {
    hide Honest;
    var tenant := x.entry.content.tenant;
    var own := Of(h, tenant);
    HonestChain(h, tenant);
    var k :| 0 <= k < |own| && own[k] == x;
    assert Chained(own, tenant, k);
  }

  /** An accepted row is the append at its own position, but for its sequence number. */
  lemma {:induction false} RowIsAppended(h: seq<Issue>, tenant: string, rows: seq<Entry>, i: nat)
    requires Honest(h) && i < |rows| && rows[i].content.tenant == tenant && Available(h, rows[i].mac)
    requires forall j :: 0 <= j < |rows| ==> EntryOk(rows, j)
    ensures i < |Of(h, tenant)|
    ensures rows[i] == Of(h, tenant)[i].entry.(sequence := rows[i].sequence)
  {
    hide Honest, Of, Available;
    assert EntryOk(rows, i);
    DepthOfRow(rows, i);
    IssuedEntry(h, tenant, rows[i].mac);
    HonestChain(h, tenant);
    assert Chained(Of(h, tenant), tenant, i);
  }

  lemma {:induction false} BySequenceFinds(rows: seq<Entry>, s: int)
    ensures s in BySequence(rows) ==>
      exists i :: 0 <= i < |rows| && rows[i].sequence == s && rows[i].mac == BySequence(rows)[s]
  {
    if rows != [] {
      BySequenceFinds(rows[..|rows| - 1], s);
    }
  }

  /** The stored checkpoint and row at hand are what the append at `i` inserted. */
  ghost predicate Matches(h: seq<Issue>, tenant: string, rows: seq<Entry>, c: Checkpoint, i: nat) {
    i < |rows| && i < |Of(h, tenant)| && c == Of(h, tenant)[i].checkpoint && rows[i] == Of(h, tenant)[i].entry
  }

  /** An accepted checkpoint is the one issued with some accepted row, and fixes that row's number. */
  lemma {:induction false} CheckpointIsIssued(h: seq<Issue>, tenant: string, rows: seq<Entry>, checks: seq<Checkpoint>,
      at: nat)
    returns (i: nat)
    requires Honest(h) && Queried(h, tenant, rows, checks) && Accepts(rows, checks) && at < |checks|
    ensures Matches(h, tenant, rows, checks[at], i)
  {
    hide Honest, Of, Available, BySequence;
    var own := Of(h, tenant);
    var c := checks[at];
    assert c in checks && CheckpointOk(rows, c);
    BySequenceFinds(rows, c.through);
    i :| 0 <= i < |rows| && rows[i].sequence == c.through && rows[i].mac == c.terminal;
    assert rows[i] in rows;
    RowIsAppended(h, tenant, rows, i);
    var k := IssuedCheckpoint(h, tenant, c.signature);
    HonestChain(h, tenant);
    assert Chained(own, tenant, k);
    DepthIsPosition(own, tenant, k);
    DepthIsPosition(own, tenant, i);
  }

  /** The positions to which the first `m` accepted checkpoints belong grow strictly. */
  lemma {:induction false} CheckpointPositions(
    h: seq<Issue>, tenant: string, rows: seq<Entry>, checks: seq<Checkpoint>, m: nat) returns (at: seq<nat>)
    requires Honest(h) && Queried(h, tenant, rows, checks) && Accepts(rows, checks) && m <= |checks|
    ensures |at| == m
    ensures forall x :: 0 <= x < m ==> Matches(h, tenant, rows, checks[x], at[x])
    ensures forall x, y :: 0 <= x < y < m ==> at[x] < at[y]
  {
    hide Honest, Of, Available, Accepts;
    if m == 0 {
      return [];
    }
    at := CheckpointPositions(h, tenant, rows, checks, m - 1);
    var i := CheckpointIsIssued(h, tenant, rows, checks, m - 1);
    forall x | 0 <= x < m - 1 ensures at[x] < i {
      assert Follows(checks[x], checks[m - 1]);
      PositionsFollow(h, tenant, rows, checks[x], at[x], checks[m - 1], i);
    }
    at := at + [i];
  }

  lemma {:induction false} PositionsFollow(h: seq<Issue>, tenant: string, rows: seq<Entry>, c: Checkpoint, i: nat,
      d: Checkpoint, j: nat)
    requires Honest(h) && Matches(h, tenant, rows, c, i) && Matches(h, tenant, rows, d, j) && Follows(c, d)
    ensures i < j
  {
    hide Honest, Of;
    HonestChain(h, tenant);
    var own := Of(h, tenant);
    assert Chained(own, tenant, i) && Chained(own, tenant, j);
    assert j < i ==> Before(own[j], own[i]);
  }

  /** A strictly growing list of `n` positions below `n` is the identity. */
  lemma {:induction false} GrowingIsIdentity(at: seq<nat>, n: nat)
    requires |at| == n && (forall x :: 0 <= x < n ==> at[x] < n)
    requires forall x, y :: 0 <= x < y < n ==> at[x] < at[y]
    ensures forall x :: 0 <= x < n ==> at[x] == x
  {
    if n > 0 {
      var shorter := at[..n - 1];
      assert forall x :: 0 <= x < n - 1 ==> shorter[x] == at[x] < at[n - 1];
      GrowingIsIdentity(shorter, n - 1);
      assert forall x :: 0 <= x < n - 1 ==> at[x] == shorter[x];
      assert n > 1 ==> at[n - 2] < at[n - 1];
    }
  }

  /** Tables that `verify` accepts are an exact prefix of what was appended, numbers included. */
  lemma {:induction false} AcceptedIsPrefix(h: seq<Issue>, tenant: string, rows: seq<Entry>, checks: seq<Checkpoint>)
    requires Honest(h) && Queried(h, tenant, rows, checks) && Accepts(rows, checks)
    ensures |rows| <= |Of(h, tenant)|
    ensures rows == Entries(Of(h, tenant)[..|rows|]) && checks == Checkpoints(Of(h, tenant)[..|rows|])
  {
    hide Honest, Of, Available, Queried;
    var at := CheckpointPositions(h, tenant, rows, checks, |checks|);
    forall x | 0 <= x < |rows| ensures at[x] < |rows| {
      assert Matches(h, tenant, rows, checks[x], at[x]);
    }
    GrowingIsIdentity(at, |rows|);
    var own := Of(h, tenant);
    forall x | 0 <= x < |rows| ensures x < |own| && rows[x] == own[x].entry && checks[x] == own[x].checkpoint {
      assert Matches(h, tenant, rows, checks[x], at[x]);
    }
    if rows != [] {
      assert Matches(h, tenant, rows, checks[|rows| - 1], at[|rows| - 1]);
    }
  }

  lemma {:induction false} BySequenceOfChain(own: seq<Issue>, tenant: string, n: nat, k: nat)
    requires Chain(own, tenant) && k < n <= |own|
    ensures own[k].entry.sequence in BySequence(Entries(own[..n]))
    ensures BySequence(Entries(own[..n]))[own[k].entry.sequence] == own[k].entry.mac
  {
    var rows := Entries(own[..n]);
    assert rows[..n - 1] == Entries(own[..n - 1]);
    if k < n - 1 {
      BySequenceOfChain(own, tenant, n - 1, k);
      assert Before(own[k], own[n - 1]);
    }
  }

  /** Every prefix of a tenant's appends verifies, whatever other tenants appended in between. */
  lemma {:induction false} PrefixIsAccepted(h: seq<Issue>, tenant: string, n: nat)
    requires Honest(h) && n <= |Of(h, tenant)|
    ensures Accepts(Entries(Of(h, tenant)[..n]), Checkpoints(Of(h, tenant)[..n]))
  {
    hide Honest, Of, BySequence;
    HonestChain(h, tenant);
    var own := Of(h, tenant);
    var rows, checks := Entries(own[..n]), Checkpoints(own[..n]);
    forall k | 0 <= k < n ensures EntryOk(rows, k) && CheckpointOk(rows, checks[k]) {
      assert Chained(own, tenant, k);
      BySequenceOfChain(own, tenant, n, k);
    }
  }

  /**
  Exactly what `verify` establishes: the stored rows and checkpoints are some prefix of the tenant's
  appends.  Edits, reordering, renumbering, moves between tenants and removals from the middle are
  all found; cutting off the newest appends together with their checkpoints is not.
  */
  lemma {:induction false} VerifyEstablishes(h: seq<Issue>, tenant: string, rows: seq<Entry>, checks: seq<Checkpoint>)
    requires Honest(h) && Queried(h, tenant, rows, checks)
    ensures Accepts(rows, checks) <==>
      exists n :: 0 <= n <= |Of(h, tenant)| &&
        rows == Entries(Of(h, tenant)[..n]) && checks == Checkpoints(Of(h, tenant)[..n])
  {
    hide Honest, Of, Queried, Accepts, Entries, Checkpoints;
    if Accepts(rows, checks) {
      AcceptedIsPrefix(h, tenant, rows, checks);
    }
    forall n | 0 <= n <= |Of(h, tenant)| ensures Accepts(Entries(Of(h, tenant)[..n]), Checkpoints(Of(h, tenant)[..n])) {
      PrefixIsAccepted(h, tenant, n);
    }
  }

  /** Every run of interleaved appends verifies for every tenant. */
  lemma {:induction false} HonestRunVerifies(h: seq<Issue>, tenant: string)
    requires Honest(h)
    ensures Accepts(Entries(Of(h, tenant)), Checkpoints(Of(h, tenant)))
  {
    PrefixIsAccepted(h, tenant, |Of(h, tenant)|);
    assert Of(h, tenant)[..|Of(h, tenant)|] == Of(h, tenant);
  }
}
