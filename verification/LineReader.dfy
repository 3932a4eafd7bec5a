/**
 The command line reader: it takes whatever bytes are ready, at most one read per call, and hands
 out one line per call. The lines do not depend on how the bytes were split into reads.
 */
module LineReader {

  newtype Byte = x: int | 0 <= x < 256

  const LF: Byte := 10
  const CR: Byte := 13

  // One call's result; TooLong, Partial and ReadFailed are its exceptions.
  datatype Outcome = Line(text: seq<Byte>) | NoLine | TooLong | Partial | ReadFailed

  // What the operating system returns: no bytes at all (Bytes([])) means the end of the input.
  datatype Read = Bytes(bytes: seq<Byte>) | NotReady | Broken

  // ---- The lines of a whole stream ----

  // The position of the first newline, or the length.
  function FirstLine(s: seq<Byte>): (n: nat)
    ensures n <= |s| && LF !in s[..n]
    ensures n < |s| ==> s[n] == LF
  {
    if s == [] || s[0] == LF then 0
    else
      var n := FirstLine(s[1..]);
      assert s[..n + 1] == [s[0]] + s[1..][..n];
      n + 1
  }

  function DropCR(s: seq<Byte>): seq<Byte> {
    if s != [] && s[|s| - 1] == CR then s[..|s| - 1] else s
  }

  // A terminated record: too long, or a line without its carriage return.
  function Record(s: seq<Byte>, maximum: nat): Outcome {
    if |s| > maximum then TooLong else Line(DropCR(s))
  }

  // The records of the stream, split at its newlines, and what follows the last one.
  function Framed(s: seq<Byte>, maximum: nat): seq<Outcome>
    decreases |s|
  {
    var n := FirstLine(s);
    if n == |s| then [] else [Record(s[..n], maximum)] + Framed(s[n + 1..], maximum)
  }

  function Rest(s: seq<Byte>): seq<Byte>
    decreases |s|
  {
    var n := FirstLine(s);
    if n == |s| then s else Rest(s[n + 1..])
  }

  // One more byte: the first newline stays where it was, if there was one.
  lemma {:induction false} FirstLineGrows(s: seq<Byte>, b: Byte)
    ensures FirstLine(s + [b]) == if FirstLine(s) < |s| || b == LF then FirstLine(s) else |s| + 1
    decreases |s|
  {
    if s == [] {
      assert (s + [b])[1..] == [];
    } else if s[0] != LF {
      assert (s + [b])[1..] == s[1..] + [b];
      FirstLineGrows(s[1..], b);
    }
  }

  // The first record of a stream that has one, and the rest of it.
  lemma FramedSplits(s: seq<Byte>, n: nat, maximum: nat)
    requires n == FirstLine(s) && n < |s|
    ensures Framed(s, maximum) == [Record(s[..n], maximum)] + Framed(s[n + 1..], maximum)
    ensures Rest(s) == Rest(s[n + 1..])
  {
  }

  lemma FramedEnds(s: seq<Byte>, maximum: nat)
    requires FirstLine(s) == |s|
    ensures Framed(s, maximum) == [] && Rest(s) == s
  {
  }

  lemma {:induction false} ByteAppends(s: seq<Byte>, b: Byte, maximum: nat)
    ensures Framed(s + [b], maximum) == Framed(s, maximum) + if b == LF then [Record(Rest(s), maximum)] else []
    ensures Rest(s + [b]) == if b == LF then [] else Rest(s) + [b]
    decreases |s|
  {
    hide Framed, Rest, Record;
    FirstLineGrows(s, b);
    var n := FirstLine(s);
    var t := s + [b];
    if n < |s| {
      var tail := s[n + 1..];
      assert t[..n] == s[..n] && t[n + 1..] == tail + [b];
      ByteAppends(tail, b, maximum);
      FramedSplits(s, n, maximum);
      FramedSplits(t, n, maximum);
    } else {
      FramedEnds(s, maximum);
      if b == LF {
        assert t[..n] == s && t[n + 1..] == [];
        FramedSplits(t, n, maximum);
        FramedEnds([], maximum);
      } else {
        FramedEnds(t, maximum);
      }
    }
  }

  // ---- What the records say ----

  // Records, each with its newline.
  function Joined(records: seq<seq<Byte>>): seq<Byte> {
    if records == [] then [] else records[0] + [LF] + Joined(records[1..])
  }

  predicate EndsInCR(s: seq<Byte>) {
    s != [] && s[|s| - 1] == CR
  }

  // The result for a record: an error if it is too long, otherwise its text without one trailing CR.
  predicate Reads(record: seq<Byte>, r: Outcome, maximum: nat) {
    if |record| > maximum then r == TooLong
    else r.Line? && (record == r.text + [CR] || (record == r.text && !EndsInCR(record)))
  }

  lemma RecordReads(record: seq<Byte>, maximum: nat)
    ensures Reads(record, Record(record, maximum), maximum)
  {
    if EndsInCR(record) { assert record == record[..|record| - 1] + [CR]; }
  }

  lemma {:induction false} NewlineIsFirst(record: seq<Byte>, more: seq<Byte>)
    requires LF !in record
    ensures FirstLine(record + [LF] + more) == |record|
    decreases |record|
  {
    var s := record + [LF] + more;
    if record == [] {
      assert s[0] == LF;
    } else {
      assert s[0] == record[0] && record[0] in record && s[1..] == record[1..] + [LF] + more;
      NewlineIsFirst(record[1..], more);
    }
  }

  lemma {:induction false} NoNewline(s: seq<Byte>)
    requires LF !in s
    ensures FirstLine(s) == |s|
    decreases |s|
  {
    if s != [] {
      assert s[0] in s;
      NoNewline(s[1..]);
    }
  }

  /** Whatever lines are sent, ended by LF or CRLF, come back one by one, without their ends; a record over the
      bound is an error of its own; and what follows the last newline is the rest. */
  lemma {:induction false} RecordsComeBack(records: seq<seq<Byte>>, tail: seq<Byte>, maximum: nat)
    requires LF !in tail && forall i :: 0 <= i < |records| ==> LF !in records[i]
    ensures var framed := Framed(Joined(records) + tail, maximum);
            |framed| == |records| && forall i :: 0 <= i < |records| ==> Reads(records[i], framed[i], maximum)
    ensures Rest(Joined(records) + tail) == tail
    decreases |records|
  {
    hide Framed, Rest, Reads;
    var s := Joined(records) + tail;
    if records == [] {
      assert s == tail;
      NoNewline(tail);
      FramedEnds(tail, maximum);
    } else {
      var n, more := |records[0]|, Joined(records[1..]) + tail;
      assert s == records[0] + [LF] + more;
      NewlineIsFirst(records[0], more);
      assert s[..n] == records[0] && s[n + 1..] == more;
      FramedSplits(s, n, maximum);
      RecordsComeBack(records[1..], tail, maximum);
      RecordReads(records[0], maximum);
      var framed := Framed(s, maximum);
      forall i | 0 <= i < |records| ensures Reads(records[i], framed[i], maximum) {
        if i > 0 { assert records[i] == records[1..][i - 1]; }
      }
    }
  }

  // ---- The reader ----

  // What the reader keeps of an unfinished record.
  predicate Keeps(line: seq<Byte>, discarding: bool, rest: seq<Byte>, maximum: nat) {
    if |rest| <= maximum then line == rest && !discarding else line == [] && discarding
  }

  class LineInput {
    const maximum: nat
    var chunk: seq<Byte>
    var position: nat
    var line: seq<Byte>
    var discarding: bool
    var closed: bool
    // The bytes looked at so far, and whether an unfinished record was reported at the end.
    ghost var consumed: seq<Byte>
    ghost var reported: bool

    constructor (maximum: nat)
      ensures Valid() && this.maximum == maximum && consumed == [] && !reported && !closed && Buffered() == []
    {
      this.maximum := maximum;
      chunk, position, line, discarding, closed := [], 0, [], false, false;
      consumed, reported := [], false;
    }

    ghost predicate Valid()
      reads this
    {
      && position <= |chunk| && (closed ==> position == |chunk|) && |line| <= maximum
      && (if reported then line == [] && !discarding && closed
          else Keeps(line, discarding, Rest(consumed), maximum))
    }

    ghost function Buffered(): seq<Byte>
      requires position <= |chunk|
      reads this
    {
      chunk[position..]
    }

    // Everything received so far.
    ghost function Received(): seq<Byte>
      requires position <= |chunk|
      reads this
    {
      consumed + Buffered()
    }

    predicate Closed()
      reads this
    {
      closed && position == |chunk|
    }

    method ReadChunk(read: Read) returns (failed: bool)
      requires Valid() && position == |chunk| && !closed
      modifies this`chunk, this`position, this`closed
      ensures Valid() && failed == read.Broken?
      ensures Buffered() == if read.Bytes? then read.bytes else []
      ensures closed == (read == Bytes([]) || read.Broken?)
    {
      chunk, position := [], 0;
      failed := false;
      match read
      case NotReady =>
      case Broken => closed, failed := true, true;
      case Bytes(bytes) => chunk, closed := bytes, |bytes| == 0;
    }

    // One byte of the buffer; the result is a line, an over-long record, or nothing yet.
    method Step() returns (r: Outcome)
      requires Valid() && position < |chunk| && !reported
      modifies this`position, this`line, this`discarding, this`consumed
      ensures Valid() && position == old(position) + 1 && consumed == old(consumed) + [chunk[old(position)]]
      ensures Framed(consumed, maximum) == Framed(old(consumed), maximum) + if r.NoLine? then [] else [r]
      ensures r.NoLine? || r.Line? || r.TooLong?
    {
      var character := chunk[position];
      ByteAppends(consumed, character, maximum);
      position := position + 1;
      consumed := consumed + [character];
      if character == LF {
        if discarding {
          discarding := false;
          return TooLong;
        }
        var text := line;
        if line != [] && line[|line| - 1] == CR { text := line[..|line| - 1]; }
        line := [];
        return Line(text);
      }
      if !discarding {
        if |line| == maximum { line, discarding := [], true; } else { line := line + [character]; }
      }
      return NoLine;
    }

    // The rest of the buffer, up to the next result.
    method Scan() returns (r: Outcome)
      requires Valid()
      modifies this`position, this`line, this`discarding, this`consumed
      ensures Valid() && Received() == old(Received()) && old(consumed) <= consumed
      ensures Framed(consumed, maximum) == Framed(old(consumed), maximum) + if r.NoLine? then [] else [r]
      ensures r.NoLine? || r.Line? || r.TooLong?
      ensures old(position) < |chunk| ==> old(position) < position
      ensures r.NoLine? ==> position == |chunk|
      ensures old(position) == |chunk| ==> r.NoLine? && consumed == old(consumed)
    {
      hide Framed, Rest;
      r := NoLine;
      while position < |chunk| && r.NoLine?
        invariant Valid() && Received() == old(Received()) && old(consumed) <= consumed
        invariant Framed(consumed, maximum) == Framed(old(consumed), maximum) + if r.NoLine? then [] else [r]
        invariant r.NoLine? || r.Line? || r.TooLong?
        invariant old(position) <= position && (position == old(position) ==> r.NoLine? && consumed == old(consumed))
      {
        ghost var here := consumed;
        r := Step();
        assert here + chunk[position - 1..] == consumed + chunk[position..];
      }
    }

    /** One call. `read` is what the operating system would return, and is used only if the buffer is
        empty and the input open. The line handed out, if any, is the next one of the stream. */
    method PollLine(read: Read) returns (r: Outcome)
      requires Valid()
      modifies this
      ensures Valid()
      ensures Received() == old(Received())
                            + if old(position == |chunk| && !closed) && read.Bytes? then read.bytes else []
      ensures Framed(consumed, maximum) == Framed(old(consumed), maximum) + if r.Line? || r.TooLong? then [r] else []
      ensures old(consumed) <= consumed
      ensures old(position < |chunk|) ==> chunk == old(chunk) && old(position) < position
      ensures r.ReadFailed? <==> old(position == |chunk| && !closed) && read.Broken?
      ensures closed == (old(closed) || (old(position == |chunk|) && (read == Bytes([]) || read.Broken?)))
      ensures r.Partial? <==> reported && !old(reported)
      ensures old(reported) ==> reported
      ensures r.NoLine? ==> position == |chunk| && (closed ==> reported || Rest(consumed) == [])
      ensures r.Partial? ==> position == |chunk| && closed && Rest(consumed) != []
      ensures closed ==> !r.Line? && !r.TooLong?
    {
      hide Framed, Rest;
      if position == |chunk| && !closed {
        var failed := ReadChunk(read);
        if failed { return ReadFailed; }
      }
      r := Scan();
      if r.NoLine? && closed && (line != [] || discarding) {
        line, discarding, reported := [], false, true;
        return Partial;
      }
    }
  }

  // ---- Whole inputs ----

  lemma NothingFramed(maximum: nat)
    ensures Framed([], maximum) == []
  {
  }

  function Concat(parts: seq<seq<Byte>>): seq<Byte> {
    if parts == [] then [] else Concat(parts[..|parts| - 1]) + parts[|parts| - 1]
  }

  /** For every stream and every split of it into reads (an empty one is a read that was not ready),
      the results of successive calls are the stream's own lines, in order, one error for each
      over-long record, and one error for a record the end of the input left unfinished. */
  method PollAll(parts: seq<seq<Byte>>, maximum: nat) returns (results: seq<Outcome>)
    ensures var stream := Concat(parts);
            results == Framed(stream, maximum) + if Rest(stream) == [] then [] else [Partial]
  {
    hide Framed, Rest;
    NothingFramed(maximum);
    var input := new LineInput(maximum);
    results := [];
    var i := 0;
    while !input.Closed()
      invariant input.Valid() && 0 <= i <= |parts| && fresh(input)
      invariant input.Received() == Concat(parts[..i]) && (input.closed ==> i == |parts|)
      invariant input.maximum == maximum && (input.reported ==> input.Closed())
      invariant results == Framed(input.consumed, maximum) + if input.reported then [Partial] else []
      invariant input.Closed() ==> (input.reported <==> Rest(input.consumed) != [])
      decreases |parts| - i, if input.closed then 0 else 1, |input.chunk| - input.position
    {
      var read := if i == |parts| then Bytes([]) else if parts[i] == [] then NotReady else Bytes(parts[i]);
      var ready := input.position == |input.chunk|;
      var r := input.PollLine(read);
      if !r.NoLine? { results := results + [r]; }
      if ready && i < |parts| {
        assert parts[..i + 1][..i] == parts[..i];
        i := i + 1;
      }
    }
    assert parts[..i] == parts && input.consumed == input.Received();
  }
}
