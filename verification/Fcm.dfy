/** The framing of FCM notifications and the loop that calls them (fcm/fcm.go). Bytes are characters here. */
module Fcm {
  import opened Collections
  import opened Decimals

  // ---- The reader ----

  /**
   * A buffered reader of a stream. How much one read gives, and whether the end of the stream is reported
   * with the last bytes or after them, is up to the connection.
   */
  class Reader {
    var data: string  // what is still to come
    var calls: nat
    const sizes: nat -> nat
    const eager: nat -> bool

    constructor (data: string, sizes: nat -> nat, eager: nat -> bool)
      ensures this.data == data
    {
      this.data, this.sizes, this.eager, calls := data, sizes, eager, 0;
    }

    /** ReadBytes('\n'): everything up to a newline and with it, or else the rest and an error. */
    method ReadLine() returns (line: string, eof: bool)
      modifies this
      ensures eof <==> !HasLine(old(data))
      ensures eof ==> line == old(data) && data == ""
      ensures !eof ==> line == LineOf(old(data)) + "\n" && old(data) == line + data
    {
      var i := NewlineAt(data);
      if i == |data| {
        line, eof, data := data, true, "";
      } else {
        line, eof, data := data[..i + 1], false, data[i + 1..];
      }
    }

    /** Read into a buffer of n bytes. */
    method Read(n: nat) returns (got: string, eof: bool)
      requires n > 0
      modifies this
      ensures old(data) == got + data && |got| <= n
      ensures got == "" ==> eof
      ensures eof ==> data == ""
      ensures old(data) == "" ==> eof
    {
      if data == "" { return "", true; }
      var most := if n < |data| then n else |data|;
      var k := 1 + sizes(calls) % most;
      got := data[..k];
      eof := k == |data| && eager(calls);
      data, calls := data[k..], calls + 1;
    }
  }

  function NewlineAt(s: string): (i: nat)
    ensures i <= |s| && (i < |s| ==> s[i] == '\n') && forall k :: 0 <= k < i ==> s[k] != '\n'
  {
    if s == "" || s[0] == '\n' then 0 else 1 + NewlineAt(s[1..])
  }

  predicate HasLine(s: string) { NewlineAt(s) < |s| }

  function LineOf(s: string): string { s[..NewlineAt(s)] }

  // ---- Frames ----

  const MAX_INT := 0x7fff_ffff_ffff_ffff

  /** strconv.Atoi, its error ignored. */
  function Atoi(s: string): int {
    var digits := if s != "" && (s[0] == '+' || s[0] == '-') then s[1..] else s;
    if digits == "" || !AllDigits(digits) then 0
    else
      var n: int := Val(digits);
      if s[0] == '-' then (if n > MAX_INT then -MAX_INT - 1 else -n)
      else if n > MAX_INT then MAX_INT
      else n
  }

  /** The length of the payload in decimal, a newline, and the payload. */
  function Frame(payload: string): string { Decimal(|payload|) + "\n" + payload }

  /** What a stream starts with. */
  datatype Start = NoLine | BadLength | Truncated | Complete(payload: string, rest: string)

  /** Here limit is the most bytes that a slice can have; make panics above it, as it does below zero. */
  function Parse(s: string, limit: nat): Start {
    if !HasLine(s) then NoLine
    else
      var n, after := Atoi(LineOf(s)), s[NewlineAt(s) + 1..];
      if n < 0 || n > limit then BadLength
      else if |after| < n then Truncated
      else Complete(after[..n], after[n..])
  }

  lemma LineIs(line: string, after: string)
    requires forall k :: 0 <= k < |line| ==> line[k] != '\n'
    ensures var s := line + "\n" + after;
            HasLine(s) && LineOf(s) == line && s[NewlineAt(s) + 1..] == after
  {
    var s := line + "\n" + after;
    assert forall k :: 0 <= k < |line| ==> s[k] == line[k];
    assert s[|line|] == '\n';
    assert NewlineAt(s) == |line|;
  }

  lemma DecimalLine(n: nat)
    requires n <= MAX_INT
    ensures Atoi(Decimal(n)) == n
    ensures forall k :: 0 <= k < |Decimal(n)| ==> Decimal(n)[k] != '\n'
  {
    hide Val, Decimal;
  }

  /** A frame is read back, whatever follows it. */
  lemma FrameRoundTrip(payload: string, rest: string, limit: nat)
    requires |payload| <= limit <= MAX_INT
    ensures Parse(Frame(payload) + rest, limit) == Complete(payload, rest)
  {
    DecimalLine(|payload|);
    hide Atoi, Decimal, NewlineAt, HasLine, LineOf;
    LineIs(Decimal(|payload|), payload + rest);
    assert Frame(payload) + rest == Decimal(|payload|) + "\n" + (payload + rest);
    assert (payload + rest)[..|payload|] == payload && (payload + rest)[|payload|..] == rest;
  }

  /** A frame that is cut off gives no payload at all. */
  lemma TruncatedFrame(payload: string, n: nat, limit: nat)
    requires |payload| <= limit <= MAX_INT && n < |Frame(payload)|
    ensures Parse(Frame(payload)[..n], limit).NoLine? || Parse(Frame(payload)[..n], limit).Truncated?
  {
    var line := Decimal(|payload|);
    DecimalLine(|payload|);
    hide Atoi, Decimal, Val;
    var s := Frame(payload)[..n];
    if n <= |line| {
      forall k | 0 <= k < |s| ensures s[k] != '\n' { assert s[k] == line[k]; }
    } else {
      var got := payload[..n - |line| - 1];
      assert s == line + "\n" + got;
      LineIs(line, got);
    }
  }

  // ---- GetPrinterID ----

  /** What GetPrinterID does; it panics on a length that no slice has and on a payload of the wrong shape. */
  datatype Outcome = ID(id: string, eof: bool) | Failed | Panics

  /** The JSON of a payload, down to the notification in it; None for an index out of range. */
  type Decoder = string -> Option<string>

  /** Reads until the buffer is full or the stream ends. */
  method ReadPayload(reader: Reader, size: nat) returns (buffer: string, eof: bool)
    modifies reader
    ensures |old(reader.data)| >= size ==> buffer == old(reader.data)[..size] && reader.data == old(reader.data)[size..]
    ensures |old(reader.data)| < size ==> |buffer| < size && reader.data == ""
    ensures eof ==> reader.data == ""
  {
    ghost var after := reader.data;
    buffer, eof := "", false;
    while !eof && |buffer| < size
      invariant buffer + reader.data == after && |buffer| <= size
      invariant eof ==> reader.data == ""
      decreases !eof, |reader.data|
    {
      var got;
      got, eof := reader.Read(size - |buffer|);
      assert buffer + got + reader.data == after;
      buffer := buffer + got;
    }
    assert (buffer + reader.data)[..|buffer|] == buffer && (buffer + reader.data)[|buffer|..] == reader.data;
  }

  /** One frame is consumed, neither more nor less; or the stream ends within it. */
  method GetPrinterID(reader: Reader, decode: Decoder, limit: nat) returns (o: Outcome)
    modifies reader
    ensures var start := Parse(old(reader.data), limit);
            match start
            case NoLine => o == Failed && reader.data == ""
            case BadLength => o == Panics
            case Truncated => o == Failed && reader.data == ""
            case Complete(payload, rest) =>
              && reader.data == rest
              && (o.Panics? <==> decode(payload).None?) && !o.Failed?
              && (o.ID? ==> Some(o.id) == decode(payload) && (o.eof ==> rest == ""))
  {
    ghost var all := reader.data;
    var line, eof := reader.ReadLine();
    if eof { return Failed; }
    assert line[..|line| - 1] == LineOf(all);
    assert reader.data == all[NewlineAt(all) + 1..] by { assert all == LineOf(all) + "\n" + reader.data; }
    hide Atoi, NewlineAt, LineOf, HasLine;
    var size := Atoi(line[..|line| - 1]);
    if size < 0 || size > limit { return Panics; }
    var buffer;
    buffer, eof := ReadPayload(reader, size);
    if |buffer| == size {
      var id := decode(buffer);
      return if id.None? then Panics else ID(id.value, eof);
    }
    return Failed;
  }

  // ---- The read loop ----

  /** The notifications that a stream gives rise to, or None if the loop panics. */
  function Delivered(s: string, decode: Decoder, limit: nat): Option<seq<string>>
    decreases |s|
  {
    var start := Parse(s, limit);
    if start.NoLine? || start.Truncated? then Some([])
    else if start.BadLength? then None
    else
      var id, later := decode(start.payload), Delivered(start.rest, decode, limit);
      if id.None? || later.None? then None
      else Some(Sent(id.value) + later.value)
  }

  /** Some, for the notification that a payload may give rise to. */
  function Sent(id: string): seq<string> { if id == "" then [] else [id] }

  lemma DeliveredStep(s: string, decode: Decoder, limit: nat)
    ensures var start, all := Parse(s, limit), Delivered(s, decode, limit);
            && (start.NoLine? || start.Truncated? ==> all == Some([]))
            && (start.BadLength? ==> all == None)
            && (start.Complete? ==>
                  var later := Delivered(start.rest, decode, limit);
                  && |start.rest| < |s|
                  && (all.None? <==> decode(start.payload).None? || later.None?)
                  && (all.Some? ==> all.value == Sent(decode(start.payload).value) + later.value))
  {
  }

  datatype LoopState = Alive | Dead | Panicked

  /** One round of the loop. */
  method ReadOne(reader: Reader, decode: Decoder, limit: nat) returns (ids: seq<string>, state: LoopState)
    modifies reader
    ensures state == Panicked ==> Delivered(old(reader.data), decode, limit).None?
    ensures state != Panicked ==>
              && (Delivered(reader.data, decode, limit).None? <==> Delivered(old(reader.data), decode, limit).None?)
              && (Delivered(reader.data, decode, limit).Some? ==>
                    Delivered(old(reader.data), decode, limit).value == ids + Delivered(reader.data, decode, limit).value)
    ensures state == Dead ==> reader.data == ""
    ensures state == Alive ==> |reader.data| < |old(reader.data)|
  {
    DeliveredStep(reader.data, decode, limit);
    NothingMore(decode, limit);
    hide Parse, Delivered;
    var o := GetPrinterID(reader, decode, limit);
    if o.Panics? { return [], Panicked; }
    if o.Failed? { return [], Dead; }
    return Sent(o.id), if o.eof then Dead else Alive;
  }

  /** The goroutine of ConnectToFcm, until it signals the end of the conversation, or panics. */
  method ReadLoop(reader: Reader, decode: Decoder, limit: nat) returns (sent: seq<string>, state: LoopState)
    modifies reader
    ensures state == Panicked <==> Delivered(old(reader.data), decode, limit).None?
    ensures state != Panicked ==> state == Dead && sent == Delivered(old(reader.data), decode, limit).value && reader.data == ""
  {
    sent, state := [], Alive;
    hide Delivered;
    while state == Alive
      invariant state == Dead ==> reader.data == ""
      invariant state == Panicked ==> Delivered(old(reader.data), decode, limit).None?
      invariant state != Panicked ==>
                  && (Delivered(reader.data, decode, limit).None? <==> Delivered(old(reader.data), decode, limit).None?)
                  && (Delivered(reader.data, decode, limit).Some? ==>
                        sent + Delivered(reader.data, decode, limit).value == Delivered(old(reader.data), decode, limit).value)
      decreases state == Alive, |reader.data|
    {
      ghost var before, rest := sent, Delivered(reader.data, decode, limit);
      var ids;
      ids, state := ReadOne(reader, decode, limit);
      assert state != Panicked && rest.Some? ==>
          before + rest.value == (before + ids) + Delivered(reader.data, decode, limit).value;
      sent := sent + ids;
    }
    NothingMore(decode, limit);
  }

  lemma NothingMore(decode: Decoder, limit: nat)
    ensures Delivered("", decode, limit) == Some([])
  {
  }

  function Frames(payloads: seq<string>): string {
    if payloads == [] then "" else Frame(payloads[0]) + Frames(payloads[1..])
  }

  function NotEmpty(): string -> bool { (id: string) => id != "" }

  /** The payloads decode to these. */
  predicate Decodes(payloads: seq<string>, decoded: seq<string>, decode: Decoder, limit: nat) {
    && |decoded| == |payloads|
    && forall i :: 0 <= i < |payloads| ==> |payloads[i]| <= limit && decode(payloads[i]) == Some(decoded[i])
  }

  /** These IDs, and then the others, if there is no panic. */
  function Before(ids: seq<string>, later: Option<seq<string>>): Option<seq<string>> {
    if later.None? then None else Some(ids + later.value)
  }

  lemma BeforeBefore(a: seq<string>, b: seq<string>, later: Option<seq<string>>)
    ensures Before(a, Before(b, later)) == Before(a + b, later) && Before([], later) == later
  {
    if later.Some? { assert a + (b + later.value) == (a + b) + later.value && [] + later.value == later.value; }
  }

  lemma FirstFrame(payload: string, id: string, rest: string, decode: Decoder, limit: nat)
    requires |payload| <= limit <= MAX_INT && decode(payload) == Some(id)
    ensures Delivered(Frame(payload) + rest, decode, limit)
            == Before(Filter(NotEmpty(), [id]), Delivered(rest, decode, limit))
  {
    FrameRoundTrip(payload, rest, limit);
    DeliveredStep(Frame(payload) + rest, decode, limit);
    assert Filter(NotEmpty(), [id]) == Sent(id) by {
      FilterNext(NotEmpty(), [], id);
      assert [] + [id] == [id];
    }
    hide Parse, Frame, Delivered, Filter, Sent;
  }

  lemma {:induction false} FramesFirst(payloads: seq<string>, decoded: seq<string>, tail: string, decode: Decoder, limit: nat)
    requires limit <= MAX_INT && Decodes(payloads, decoded, decode, limit)
    ensures Delivered(Frames(payloads) + tail, decode, limit)
            == Before(Filter(NotEmpty(), decoded), Delivered(tail, decode, limit))
  {
    hide Parse, Frame, Delivered, Before;
    BeforeBefore([], [], Delivered(tail, decode, limit));
    if payloads == [] {
      assert Frames(payloads) + tail == tail;
    } else {
      var rest := Frames(payloads[1..]) + tail;
      assert Frames(payloads) + tail == Frame(payloads[0]) + rest;
      assert [decoded[0]] + decoded[1..] == decoded;
      hide Filter;
      FirstFrame(payloads[0], decoded[0], rest, decode, limit);
      FramesFirst(payloads[1..], decoded[1..], tail, decode, limit);
      FilterConcat(NotEmpty(), [decoded[0]], decoded[1..]);
      BeforeBefore(Filter(NotEmpty(), [decoded[0]]), Filter(NotEmpty(), decoded[1..]), Delivered(tail, decode, limit));
    }
  }

  /** A stream of frames, the last one possibly cut off, delivers what the payloads decode to, in order; but no empty IDs. */
  lemma FramesAreDelivered(payloads: seq<string>, decoded: seq<string>, tail: string, decode: Decoder, limit: nat)
    requires limit <= MAX_INT && |decoded| == |payloads|
    requires forall i :: 0 <= i < |payloads| ==> |payloads[i]| <= limit && decode(payloads[i]) == Some(decoded[i])
    requires Parse(tail, limit).NoLine? || Parse(tail, limit).Truncated?
    ensures Delivered(Frames(payloads) + tail, decode, limit) == Some(Filter(NotEmpty(), decoded))
  {
    FramesFirst(payloads, decoded, tail, decode, limit);
    hide Parse, Frames;
    assert Filter(NotEmpty(), decoded) + [] == Filter(NotEmpty(), decoded);
  }

  /** A payload that does not decode makes the loop panic, whatever comes before and after it. */
  lemma BadPayloadPanics(
    payloads: seq<string>, decoded: seq<string>, bad: string, rest: string, decode: Decoder, limit: nat)
    requires limit <= MAX_INT && Decodes(payloads, decoded, decode, limit)
    requires |bad| <= limit && decode(bad).None?
    ensures Delivered(Frames(payloads) + (Frame(bad) + rest), decode, limit).None?
  {
    FrameRoundTrip(bad, rest, limit);
    FramesFirst(payloads, decoded, Frame(bad) + rest, decode, limit);
    hide Parse, Frames, Frame;
  }

  // ---- Lengths that are none ----

  lemma ParseLine(line: string, after: string, limit: nat)
    requires forall k :: 0 <= k < |line| ==> line[k] != '\n'
    ensures Parse(line + "\n" + after, limit) ==
            if Atoi(line) < 0 || Atoi(line) > limit then BadLength
            else if |after| < Atoi(line) then Truncated
            else Complete(after[..Atoi(line)], after[Atoi(line)..])
  {
    LineIs(line, after);
    hide Atoi, HasLine, LineOf, NewlineAt;
  }

  /** A negative length and one that no slice has make GetPrinterID panic. */
  lemma BadLengths(n: nat, after: string, limit: nat)
    requires 0 < n <= MAX_INT
    ensures Parse("-" + Decimal(n) + "\n" + after, limit) == BadLength
    ensures n > limit ==> Parse(Decimal(n) + "\n" + after, limit) == BadLength
  {
    DecimalLine(n);
    var line := "-" + Decimal(n);
    assert line[1..] == Decimal(n);
    hide Parse, Decimal, Val;
    assert Atoi(line) < 0;
    hide Atoi;
    ParseLine(line, after, limit);
    ParseLine(Decimal(n), after, limit);
  }

  /** Text that is no number counts as a length of zero: an empty payload, and the stream goes on after the line. */
  lemma NoNumberIsZero(line: string, after: string, limit: nat)
    requires forall k :: 0 <= k < |line| ==> line[k] != '\n'
    requires line == "" || !('0' <= line[|line| - 1] <= '9')
    ensures Parse(line + "\n" + after, limit) == Complete("", after)
  {
    ParseLine(line, after, limit);
    hide Parse;
    var digits := if line != "" && (line[0] == '+' || line[0] == '-') then line[1..] else line;
    if digits != "" { assert digits[|digits| - 1] == line[|line| - 1]; }
    assert after[..0] == "" && after[0..] == after;
  }
}
