/**
The bounded reader of Santa's JSON log.

`parse` is what becomes of one line: a security event, a record of no interest, or a rejection.
The meaning of a stretch of log is the events of its lines; a read returns exactly the events of the
stretch between its cursor and the next, and both ends are line boundaries.
*/
module SantaReader {
  import opened Results

  type Byte = x: int | 0 <= x < 256

  const NEWLINE: Byte := 10

  datatype Event = Event(id: string)

  datatype Parsed = Accepted(event: Event) | Ignored | Rejected

  datatype Limits = Limits(maxEvents: nat, maxLineBytes: nat, maxReadBytes: nat)

  // ---------------------------------------------------------------- lines

  /** The length of the first line of a text, its newline included when there is one. */
  function FirstLine(s: seq<Byte>): (n: nat)
    ensures n <= |s| && (s != [] ==> n > 0)
  {
    if s == [] then 0 else if s[0] == NEWLINE then 1 else 1 + FirstLine(s[1..])
  }

  lemma {:induction false} LineShape(s: seq<Byte>)
    ensures var n := FirstLine(s);
      (n < |s| ==> s[n - 1] == NEWLINE) && forall i :: 0 <= i < n - 1 ==> s[i] != NEWLINE
  {
    if s != [] && s[0] != NEWLINE {
      LineShape(s[1..]);
    }
  }

  predicate EndsLine(s: seq<Byte>) { s != [] && s[|s| - 1] == NEWLINE }

  function Emit(p: Parsed): seq<Event> { if p.Accepted? then [p.event] else [] }

  /** The events of a stretch of log. */
  function Events(parse: seq<Byte> -> Parsed, s: seq<Byte>): seq<Event> {
    if s == [] then [] else
    var n := FirstLine(s);
    Emit(parse(s[..n])) + Events(parse, s[n..])
  }

  /** A position at which a line may start. */
  predicate Boundary(log: seq<Byte>, p: nat) { p <= |log| && (p == 0 || log[p - 1] == NEWLINE) }

  /** The position behind the last complete line. */
  function LastBoundary(log: seq<Byte>): (p: nat)
    ensures Boundary(log, p) && forall q: nat :: p < q <= |log| ==> !Boundary(log, q)
  {
    if log == [] || log[|log| - 1] == NEWLINE then |log| else
    var shorter := log[..|log| - 1];
    assert forall q: nat :: q < |log| ==> Boundary(log, q) == Boundary(shorter, q);
    LastBoundary(shorter)
  }

  lemma {:induction false} FirstLineAppend(a: seq<Byte>, b: seq<Byte>)
    requires EndsLine(a)
    ensures FirstLine(a + b) == FirstLine(a)
  {
    if a[0] != NEWLINE {
      assert (a + b)[1..] == a[1..] + b;
      FirstLineAppend(a[1..], b);
    }
  }

  /** Complete lines may be read in separate stretches. */
  lemma {:induction false} EventsAppend(parse: seq<Byte> -> Parsed, a: seq<Byte>, b: seq<Byte>)
    requires a == [] || EndsLine(a)
    ensures Events(parse, a + b) == Events(parse, a) + Events(parse, b)
    decreases |a|
  {
    hide FirstLine;
    if a == [] {
      assert a + b == b;
    } else {
      var n := FirstLine(a);
      LineShape(a);
      FirstLineAppend(a, b);
      assert (a + b)[..n] == a[..n];
      assert (a + b)[n..] == a[n..] + b;
      EventsAppend(parse, a[n..], b);
      assert Emit(parse(a[..n])) + (Events(parse, a[n..]) + Events(parse, b)) ==
        Emit(parse(a[..n])) + Events(parse, a[n..]) + Events(parse, b);
    }
  }

  // ---------------------------------------------------------------- one read

  /** What one pass over the log yields: a batch up to the next cursor, or a refusal of the file. */
  datatype Batch = Batch(events: seq<Event>, rejected: nat, next: nat) | LineTooLong

  function Extend(p: Parsed, rest: Batch): Batch {
    if rest.LineTooLong? then rest
    else Batch(Emit(p) + rest.events, rest.rejected + (if p.Rejected? then 1 else 0), rest.next)
  }

  /** The length of the line at `p`, zero at the end of the log. */
  function LineAt(log: seq<Byte>, p: nat): (n: nat)
    requires p <= |log|
    ensures p + n <= |log| && (n == 0 <==> p == |log|)
  {
    FirstLine(log[p..])
  }

  /** Whether the line at `p` is complete and within every limit of this read. */
  predicate Takes(l: Limits, log: seq<Byte>, p: nat, consumed: nat, held: nat)
    requires p <= |log|
  {
    var n := LineAt(log, p);
    held < l.maxEvents && 0 < n <= l.maxLineBytes && log[p + n - 1] == NEWLINE && consumed + n <= l.maxReadBytes
  }

  /** The rest of a read that already holds `held` events from `consumed` bytes and stands at `p`. */
  function ReadOn(l: Limits, parse: seq<Byte> -> Parsed, log: seq<Byte>, p: nat, consumed: nat, held: nat): Batch
    requires p <= |log|
    decreases |log| - p
  {
    var n := LineAt(log, p);
    if Takes(l, log, p, consumed, held) then
      var parsed := parse(log[p..p + n]);
      Extend(parsed, ReadOn(l, parse, log, p + n, consumed + n, held + |Emit(parsed)|))
    else if held < l.maxEvents && n > l.maxLineBytes then LineTooLong
    else Batch([], 0, p)
  }

  datatype Cursor = Cursor(device: int, inode: int, offset: int)

  /** Where a read starts: at the saved cursor if it belongs to this file and still fits. */
  function StartOffset(cursor: Option<Cursor>, device: int, inode: int, size: nat): (p: nat)
    ensures p <= size
  {
    match cursor
    case Some(c) => if c.device == device && c.inode == inode && 0 <= c.offset <= size then c.offset else 0
    case None => 0
  }

  /** A batch behind what has been read before it. */
  function After(events: seq<Event>, rejected: nat, rest: Batch): Batch {
    if rest.LineTooLong? then rest else Batch(events + rest.events, rejected + rest.rejected, rest.next)
  }

  lemma {:induction false} AfterExtend(events: seq<Event>, rejected: nat, p: Parsed, rest: Batch)
    ensures After(events, rejected, Extend(p, rest)) ==
      After(events + Emit(p), rejected + (if p.Rejected? then 1 else 0), rest)
  {
    if rest.Batch? {
      assert events + (Emit(p) + rest.events) == events + Emit(p) + rest.events;
    }
  }

  lemma {:induction false} AfterNothing(rest: Batch)
    ensures After([], 0, rest) == rest
  {
    if rest.Batch? {
      assert [] + rest.events == rest.events;
    }
  }

  lemma {:induction false} AfterAll(events: seq<Event>, rejected: nat, p: nat)
    ensures After(events, rejected, Batch([], 0, p)) == Batch(events, rejected, p)
  {
    assert events + [] == events;
  }

  /** `SantaJsonLogReader.read` on an open regular file. */
  method Read(l: Limits, parse: seq<Byte> -> Parsed, log: seq<Byte>, cursor: Option<Cursor>, device: int, inode: int)
    returns (r: Batch)
    ensures r == ReadOn(l, parse, log, StartOffset(cursor, device, inode, |log|), 0, 0)
  {
    hide LineAt, After, Extend, StartOffset;
    var events: seq<Event> := [];
    var rejected: nat, consumed: nat := 0, 0;
    var position := StartOffset(cursor, device, inode, |log|);
    ghost var whole := ReadOn(l, parse, log, position, 0, 0);
    AfterNothing(whole);
    while |events| < l.maxEvents
      invariant position <= |log|
      invariant whole == After(events, rejected, ReadOn(l, parse, log, position, consumed, |events|))
      decreases |log| - position
    {
      var full := LineAt(log, position);
      var length := if full > l.maxLineBytes + 1 then l.maxLineBytes + 1 else full;
      if length == 0 {
        break;
      }
      if length > l.maxLineBytes {
        RefusalStands(events, rejected);
        return LineTooLong;
      }
      if log[position + length - 1] != NEWLINE {
        break;
      }
      if consumed + length > l.maxReadBytes {
        break;
      }
      var parsed := parse(log[position..position + length]);
      AfterExtend(events, rejected, parsed,
                  ReadOn(l, parse, log, position + length, consumed + length, |events| + |Emit(parsed)|));
      consumed := consumed + length;
      position := position + length;
      if parsed.Rejected? {
        assert events + [] == events;
        rejected := rejected + 1;
      } else if parsed.Accepted? {
        events := events + [parsed.event];
      } else {
        assert events + [] == events;
      }
    }
    AfterAll(events, rejected, position);
    return Batch(events, rejected, position);
  }

  lemma {:induction false} RefusalStands(events: seq<Event>, rejected: nat)
    ensures After(events, rejected, LineTooLong) == LineTooLong
  {
  }

  // ---------------------------------------------------------------- what a read returns

  lemma {:induction false} LineEndsAtBoundary(log: seq<Byte>, p: nat)
    requires p < |log| && log[p + LineAt(log, p) - 1] == NEWLINE
    ensures Boundary(log, p + LineAt(log, p))
  {
  }

  lemma {:induction false} OneLine(parse: seq<Byte> -> Parsed, log: seq<Byte>, p: nat, n: nat)
    requires p < |log| && n == LineAt(log, p) && log[p + n - 1] == NEWLINE
    ensures EndsLine(log[p..p + n]) && Events(parse, log[p..p + n]) == Emit(parse(log[p..p + n]))
  {
    var line := log[p..p + n];
    assert line + log[p + n..] == log[p..];
    FirstLineAppend(line, log[p + n..]);
    assert line[..n] == line && line[n..] == [];
  }

  /** The events of a line and of what follows it, up to a later boundary. */
  lemma {:induction false} LineThenRest(parse: seq<Byte> -> Parsed, log: seq<Byte>, p: nat, n: nat, q: nat)
    requires p < |log| && n == LineAt(log, p) && log[p + n - 1] == NEWLINE && p + n <= q <= |log|
    ensures Events(parse, log[p..q]) == Emit(parse(log[p..p + n])) + Events(parse, log[p + n..q])
  {
    hide Events, LineAt;
    OneLine(parse, log, p, n);
    Stretches(parse, log, p, p + n, q);
  }

  /** From a boundary, a read returns exactly the events up to a later boundary. */
  lemma {:induction false} ReadIsExact(
    l: Limits, parse: seq<Byte> -> Parsed, log: seq<Byte>, p: nat, consumed: nat, held: nat)
    requires Boundary(log, p)
    ensures var r := ReadOn(l, parse, log, p, consumed, held);
      r.Batch? ==> p <= r.next && Boundary(log, r.next) && r.events == Events(parse, log[p..r.next])
    decreases |log| - p
  {
    hide Boundary, LineAt, Events;
    assert p <= |log| && Events(parse, []) == [] by { AtBoundary(log, p); NoEvents(parse); }
    var r := ReadOn(l, parse, log, p, consumed, held);
    if Takes(l, log, p, consumed, held) {
      var n := LineAt(log, p);
      LineEndsAtBoundary(log, p);
      ReadIsExact(l, parse, log, p + n, consumed + n, held + |Emit(parse(log[p..p + n]))|);
      if r.Batch? {
        AtBoundary(log, r.next);
        LineThenRest(parse, log, p, n, r.next);
      }
    } else {
      assert log[p..p] == [];
    }
  }

  lemma {:induction false} AtBoundary(log: seq<Byte>, p: nat)
    ensures Boundary(log, p) ==> p <= |log|
  {
  }

  lemma {:induction false} NoEvents(parse: seq<Byte> -> Parsed) ensures Events(parse, []) == [] {}

  /** A batch holds no more events and no more bytes than the limits allow, and no line that is too long. */
  lemma {:induction false} ReadWithinLimits(
    l: Limits, parse: seq<Byte> -> Parsed, log: seq<Byte>, p: nat, consumed: nat, held: nat)
    requires p <= |log| && consumed <= l.maxReadBytes && held <= l.maxEvents
    ensures var r := ReadOn(l, parse, log, p, consumed, held);
      r.Batch? ==> held + |r.events| <= l.maxEvents && consumed + (r.next - p) <= l.maxReadBytes
    ensures held < l.maxEvents && LineAt(log, p) > l.maxLineBytes ==>
      ReadOn(l, parse, log, p, consumed, held).LineTooLong?
    decreases |log| - p
  {
    hide LineAt;
    if Takes(l, log, p, consumed, held) {
      var n := LineAt(log, p);
      ReadWithinLimits(l, parse, log, p + n, consumed + n, held + |Emit(parse(log[p..p + n]))|);
    }
  }

  /** The saved offset counts only for the same file, and only while the file still reaches it. */
  lemma {:induction false} StartsByName(device: int, inode: int, offset: int, otherDevice: int, otherInode: int,
      size: nat)
    ensures StartOffset(None, device, inode, size) == 0
    ensures 0 <= offset <= size ==> StartOffset(Some(Cursor(device, inode, offset)), device, inode, size) == offset
    ensures offset < 0 || offset > size || otherDevice != device || otherInode != inode ==>
      StartOffset(Some(Cursor(otherDevice, otherInode, offset)), device, inode, size) == 0
  {
  }

  /** Every complete line fits the reader's limits. */
  ghost predicate LinesFit(l: Limits, log: seq<Byte>) {
    && l.maxEvents > 0
    && l.maxLineBytes <= l.maxReadBytes
    && forall p: nat :: p <= |log| && Boundary(log, p) ==> LineAt(log, p) <= l.maxLineBytes
  }

  lemma {:induction false} ReadFits(
    l: Limits, parse: seq<Byte> -> Parsed, log: seq<Byte>, p: nat, consumed: nat, held: nat)
    requires LinesFit(l, log) && Boundary(log, p)
    ensures ReadOn(l, parse, log, p, consumed, held).Batch?
    decreases |log| - p
  {
    hide LineAt;
    if Takes(l, log, p, consumed, held) {
      var n := LineAt(log, p);
      LineEndsAtBoundary(log, p);
      ReadFits(l, parse, log, p + n, consumed + n, held + |Emit(parse(log[p..p + n]))|);
    }
  }

  /** A read stands still only when there is no further complete line. */
  lemma {:induction false} ReadProgresses(l: Limits, parse: seq<Byte> -> Parsed, log: seq<Byte>, p: nat)
    requires LinesFit(l, log) && Boundary(log, p)
    ensures var r := ReadOn(l, parse, log, p, 0, 0); r.Batch? && (r.next == p ==> p == LastBoundary(log))
  {
    ReadFits(l, parse, log, p, 0, 0);
    var n := LineAt(log, p);
    if n > 0 && log[p + n - 1] == NEWLINE {
      LineEndsAtBoundary(log, p);
      ReadIsExact(l, parse, log, p + n, n, |Emit(parse(log[p..p + n]))|);
    } else {
      NoMoreLines(log, p);
    }
  }

  lemma {:induction false} NoMoreLines(log: seq<Byte>, p: nat)
    requires Boundary(log, p) && (p < |log| ==> log[p + LineAt(log, p) - 1] != NEWLINE)
    ensures p == LastBoundary(log)
  {
    hide FirstLine, LastBoundary;
    LineShape(log[p..]);
    assert LineAt(log, p) == |log| - p;
    forall q: nat | p < q <= |log| ensures !Boundary(log, q) {
      assert log[p..][q - p - 1] == log[q - 1];
    }
    assert Boundary(log, LastBoundary(log));
  }

  /** Stretches of log that meet at a boundary hold the events of the joint stretch, in order. */
  lemma {:induction false} Stretches(parse: seq<Byte> -> Parsed, log: seq<Byte>, p: nat, q: nat, e: nat)
    requires p <= q <= e <= |log| && (p < q ==> Boundary(log, q))
    ensures Events(parse, log[p..e]) == Events(parse, log[p..q]) + Events(parse, log[q..e])
  {
    hide Events;
    assert log[p..e] == log[p..q] + log[q..e];
    EventsAppend(parse, log[p..q], log[q..e]);
  }

  // ---------------------------------------------------------------- reading to the end

  /** Reading again and again from the returned cursor until nothing more comes. */
  ghost function ReadAll(l: Limits, parse: seq<Byte> -> Parsed, log: seq<Byte>, p: nat): seq<Event>
    requires LinesFit(l, log) && Boundary(log, p)
    decreases |log| - p
  {
    ReadProgresses(l, parse, log, p);
    ReadIsExact(l, parse, log, p, 0, 0);
    var r := ReadOn(l, parse, log, p, 0, 0);
    if r.next == p then r.events else r.events + ReadAll(l, parse, log, r.next)
  }

  /** The batches of repeated reads concatenate to every complete line of the log, parsed once. */
  lemma {:induction false} ReadAllReadsOnce(l: Limits, parse: seq<Byte> -> Parsed, log: seq<Byte>, p: nat)
    requires LinesFit(l, log) && Boundary(log, p)
    ensures p <= LastBoundary(log)
    ensures ReadAll(l, parse, log, p) == Events(parse, log[p..LastBoundary(log)])
    decreases |log| - p
  {
    hide ReadOn, Events, LastBoundary, LinesFit;
    ReadProgresses(l, parse, log, p);
    ReadIsExact(l, parse, log, p, 0, 0);
    var r := ReadOn(l, parse, log, p, 0, 0);
    var end := LastBoundary(log);
    if r.next != p {
      ReadAllReadsOnce(l, parse, log, r.next);
      Stretches(parse, log, p, r.next, end);
    }
  }
}
