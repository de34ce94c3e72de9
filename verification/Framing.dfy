/** Frames on the client's stream: resumable reads, and parsing that does not depend on
    how the bytes were cut up. */
module Framing {
  import opened Codes
  import opened Wire

  datatype Frame = Frame(header: Header, payload: seq<byte>)

  predicate IsResponse(h: Header) { h.flags % 2 == 1 }
  predicate IsEvent(h: Header) { h.flags / 2 % 2 == 1 }
  predicate HasMore(h: Header) { h.flags / 4 % 2 == 1 }

  predicate FlagsOk(h: Header) {
    h.flags < 8 && !(IsResponse(h) && IsEvent(h)) && (HasMore(h) ==> IsResponse(h))
  }

  /** What the client takes for a frame. */
  predicate Accepts(h: Header) {
    && h.major == MAJOR && h.minor == MINOR && h.size <= MAX_PAYLOAD && FlagsOk(h)
    && if IsEvent(h) then h.id == 0 else if IsResponse(h) then h.id != 0 else h.flags == 0 && h.id != 0
  }

  /** A header's 24 bytes, if they start a frame. */
  function HeaderOf(s: seq<byte>): (r: Option<Header>)
    requires |s| >= HEADER
    ensures r.Some? ==> Accepts(r.value)
  {
    match DecodeHeader(s[..HEADER])
    case None => None
    case Some(h) => if Accepts(h) then Some(h) else None
  }

  /** The stream starts with a whole header that starts no frame. */
  predicate Malformed(s: seq<byte>) { |s| >= HEADER && HeaderOf(s).None? }

  predicate HasFrame(s: seq<byte>) {
    |s| >= HEADER && HeaderOf(s).Some? && |s| >= HEADER + HeaderOf(s).value.size
  }

  function FirstFrame(s: seq<byte>): Frame
    requires HasFrame(s)
  {
    var h := HeaderOf(s).value;
    Frame(h, s[HEADER..HEADER + h.size])
  }

  function AfterFrame(s: seq<byte>): (r: seq<byte>)
    requires HasFrame(s)
    ensures |r| < |s|
  {
    s[HEADER + HeaderOf(s).value.size..]
  }

  /** The frames of a whole stream, up to its end or a malformed header. */
  function Parse(s: seq<byte>): seq<Frame>
    decreases |s|
  {
    if !HasFrame(s) then [] else [FirstFrame(s)] + Parse(AfterFrame(s))
  }

  lemma ParseStep(s: seq<byte>)
    ensures Parse(s) == if HasFrame(s) then [FirstFrame(s)] + Parse(AfterFrame(s)) else []
    ensures Malformed(s) ==> !HasFrame(s)
  {}

  // ---------------------------------------------------------------- the stream's writer

  function Encode(f: Frame): seq<byte> { EncodeHeader(f.header) + f.payload }

  function EncodeAll(fs: seq<Frame>): seq<byte> {
    if fs == [] then [] else Encode(fs[0]) + EncodeAll(fs[1..])
  }

  predicate Sendable(f: Frame) { Encodable(f.header) && Accepts(f.header) && f.header.size == |f.payload| }

  lemma EncodedFirst(f: Frame, tail: seq<byte>)
    requires Sendable(f)
    ensures var s := Encode(f) + tail; HasFrame(s) && FirstFrame(s) == f && AfterFrame(s) == tail
  {
    var s := Encode(f) + tail;
    HeaderRoundTrip(f.header);
    hide EncodeHeader, DecodeHeader, Accepts, Encodable;
    assert s[..HEADER] == EncodeHeader(f.header);
    assert HeaderOf(s) == Some(f.header);
    assert s[HEADER..HEADER + f.header.size] == f.payload;
    assert s[HEADER + f.header.size..] == tail;
  }

  /** Whatever was sent is what is parsed, and an unfinished frame stays pending. */
  lemma {:induction false} ParseEncoded(fs: seq<Frame>, rest: seq<byte>)
    requires forall i :: 0 <= i < |fs| ==> Sendable(fs[i])
    ensures Parse(EncodeAll(fs) + rest) == fs + Parse(rest)
  {
    hide Encode, HasFrame, FirstFrame, AfterFrame, Sendable;
    var s := EncodeAll(fs) + rest;
    if fs == [] {
      assert s == rest;
    } else {
      var tail := EncodeAll(fs[1..]) + rest;
      assert s == Encode(fs[0]) + tail;
      EncodedFirst(fs[0], tail);
      ParseEncoded(fs[1..], rest);
    }
  }

  // ---------------------------------------------------------------- the receiver

  /** What one attempt to read the socket brings. */
  datatype Outcome = Data(most: nat) | Again | TimedOut | Broken

  datatype Status = Ok | Timeout | Unavailable | Invalid

  /** Every read brings something while there is something to bring. */
  predicate Flowing(plan: seq<Outcome>) {
    forall i :: 0 <= i < |plan| ==> plan[i].Data? && plan[i].most > 0
  }

  class Connection {
    const header: array<byte>
    var headerUsed: nat
    const rx: array<byte>
    var payloadUsed: nat
    var unread: seq<byte>      // what the peer has sent and nobody has read
    var outcomes: seq<Outcome> // how the coming reads will go

    ghost predicate Valid()
      reads this, header, rx
    {
      && header.Length == HEADER && rx.Length == MAX_PAYLOAD && header != rx
      && headerUsed <= HEADER && payloadUsed <= MAX_PAYLOAD
      && (payloadUsed > 0 ==>
         headerUsed == HEADER && HeaderOf(header[..]).Some? && payloadUsed <= HeaderOf(header[..]).value.size)
    }

    /** Everything received or still to be read, in stream order. */
    ghost function Pending(): seq<byte>
      requires Valid()
      reads this, header, rx
    {
      header[..headerUsed] + rx[..payloadUsed] + unread
    }

    /** The reads to come bring everything that was sent. */
    ghost predicate Flows()
      reads `unread, `outcomes
    {
      Flowing(outcomes) && |unread| <= |outcomes|
    }

    constructor (stream: seq<byte>, plan: seq<Outcome>)
      ensures Valid() && Pending() == stream && fresh(header) && fresh(rx)
      ensures unread == stream && outcomes == plan
    {
      header := new byte[HEADER](_ => 0);
      rx := new byte[MAX_PAYLOAD](_ => 0);
      headerUsed, payloadUsed, unread, outcomes := 0, 0, stream, plan;
    }

    /** Copies the next n unread bytes into the buffer. */
    method Copy(buffer: array<byte>, at: nat, n: nat)
      requires at + n <= buffer.Length && n <= |unread|
      modifies `unread, buffer
      ensures buffer[..at + n] == old(buffer[..at] + unread[..n]) && unread == old(unread[n..])
    {
      var i := 0;
      while i < n
        invariant i <= n && unread == old(unread)
        invariant buffer[..at + i] == old(buffer[..at] + unread[..i])
      {
        buffer[at + i] := unread[i];
        i := i + 1;
      }
      unread := unread[n..];
    }

    /** Fills the buffer up to size, from wherever an earlier call left it. */
    method ReadIncremental(buffer: array<byte>, size: nat, used: nat) returns (status: Status, filled: nat)
      requires used <= size <= buffer.Length
      modifies `unread, `outcomes, buffer
      ensures used <= filled <= size && !status.Invalid? && (status.Ok? <==> filled == size)
      ensures buffer[..filled] + unread == old(buffer[..used] + unread)
      ensures old(Flows()) ==> Flows() && (status.Ok? || unread == [])
    {
      filled := used;
      while filled < size
        invariant used <= filled <= size
        invariant buffer[..filled] + unread == old(buffer[..used] + unread)
        invariant old(Flows()) ==> Flows()
        decreases |outcomes|
      {
        if outcomes == [] {
          return Timeout, filled;
        }
        var o := outcomes[0];
        outcomes := outcomes[1..];
        match o
        case Again =>
        case TimedOut => return Timeout, filled;
        case Broken => return Unavailable, filled;
        case Data(most) =>
          var n := if most <= |unread| then most else |unread|;
          n := if n <= size - filled then n else size - filled;
          ghost var before := unread;
          Copy(buffer, filled, n);
          assert before == before[..n] + unread;
          filled := filled + n;
      }
      status := Ok;
    }

    method ReadHeader() returns (status: Status)
      requires Valid()
      modifies this, header
      ensures Valid() && Pending() == old(Pending()) && !status.Invalid? && (status.Ok? <==> headerUsed == HEADER)
      ensures old(Flows()) ==> Flows() && (status.Ok? || unread == [])
    {
      if headerUsed == HEADER {
        return Ok;
      }
      assert payloadUsed == 0 && Pending() == header[..headerUsed] + unread;
      status, headerUsed := ReadIncremental(header, HEADER, headerUsed);
      assert Pending() == header[..headerUsed] + unread;
    }

    method ReadPayload(size: nat) returns (status: Status)
      requires Valid() && headerUsed == HEADER && HeaderOf(header[..]).Some? && HeaderOf(header[..]).value.size == size
      modifies `unread, `outcomes, `payloadUsed, rx
      ensures Valid() && Pending() == old(Pending()) && header[..] == old(header[..])
      ensures !status.Invalid? && (status.Ok? <==> payloadUsed == size)
      ensures old(Flows()) ==> Flows() && (status.Ok? || unread == [])
    {
      hide HeaderOf;
      assert Pending() == header[..] + (rx[..payloadUsed] + unread);
      status, payloadUsed := ReadIncremental(rx, size, payloadUsed);
      assert Pending() == header[..] + (rx[..payloadUsed] + unread);
    }

    /** The next frame, if it is complete; otherwise what was read is kept for the next call. */
    method ReceiveFrame() returns (status: Status, frame: Frame)
      requires Valid()
      modifies this, header, rx
      ensures Valid()
      ensures if status.Ok?
              then && HasFrame(old(Pending())) && frame == FirstFrame(old(Pending()))
                   && Pending() == AfterFrame(old(Pending()))
              else Pending() == old(Pending())
      ensures status.Invalid? <==> Malformed(old(Pending())) && headerUsed == HEADER
      ensures !status.Ok? && unread == [] ==> !HasFrame(Pending())
      ensures old(Flows()) ==> Flows() && (status.Ok? || !HasFrame(Pending()))
    {
      frame := Frame(Header(0, 0, 0, 0, 0, 0), []);
      status := ReadHeader();
      if !status.Ok? {
        return;
      }
      hide DecodeHeader, Accepts;
      ghost var before := Pending();
      assert before[..HEADER] == header[..] == header[..][..HEADER];
      var decoded := HeaderOf(header[..]);
      assert decoded == HeaderOf(before);
      if decoded.None? {
        return Invalid, frame;
      }
      var size := decoded.value.size;
      status := ReadPayload(size);
      if status.Ok? {
        assert before == header[..] + rx[..size] + unread;
        frame := Frame(decoded.value, rx[..size]);
        headerUsed, payloadUsed := 0, 0;
        assert Pending() == unread;
      }
    }

    /** Any number of calls, whatever each read brings and however often one times out. */
    method ReceiveFrames(calls: nat) returns (frames: seq<Frame>, status: Status)
      requires Valid()
      modifies this, header, rx
      ensures Valid() && Parse(old(Pending())) == frames + Parse(Pending())
      ensures status.Invalid? ==> Malformed(Pending()) && frames == Parse(old(Pending()))
      ensures !status.Ok? && unread == [] ==> frames == Parse(old(Pending()))
      ensures old(Flows()) ==> |frames| == calls || frames == Parse(old(Pending()))
    {
      hide HasFrame, FirstFrame, AfterFrame, Malformed, Parse, HeaderOf, Flows;
      frames, status := [], Ok;
      var i := 0;
      while i < calls
        invariant i <= calls && Valid() && Parse(old(Pending())) == frames + Parse(Pending())
        invariant status.Invalid? ==> Malformed(Pending())
        invariant !status.Ok? && unread == [] ==> !HasFrame(Pending())
        invariant old(Flows()) ==> Flows() && (|frames| == i || !HasFrame(Pending()))
      {
        var frame;
        ghost var before := Pending();
        status, frame := ReceiveFrame();
        ParseStep(before);
        if status.Ok? {
          assert frames + ([frame] + Parse(Pending())) == frames + [frame] + Parse(Pending());
          frames := frames + [frame];
        }
        i := i + 1;
      }
      ParseStep(Pending());
    }
  }

  /** Frames sent back to back come out whole, in order and all of them, however the bytes
      were cut into reads. */
  method DeliverAll(fs: seq<Frame>, plan: seq<Outcome>, calls: nat) returns (frames: seq<Frame>, drained: bool)
    requires forall i :: 0 <= i < |fs| ==> Sendable(fs[i])
    ensures frames <= fs && (drained ==> frames == fs)
    ensures Flowing(plan) && |EncodeAll(fs)| <= |plan| && |fs| <= calls ==> frames == fs
  {
    var c := new Connection(EncodeAll(fs), plan);
    var status;
    frames, status := c.ReceiveFrames(calls);
    drained := !status.Ok? && c.unread == [];
    ParseEncoded(fs, []);
    assert EncodeAll(fs) + [] == EncodeAll(fs);
    assert Parse(EncodeAll(fs)) == fs;
  }

  /** Once a header is malformed no later byte makes a frame of it. */
  lemma MalformedIsFinal(s: seq<byte>, more: seq<byte>)
    requires Malformed(s)
    ensures Malformed(s + more) && Parse(s + more) == []
  {
    assert (s + more)[..HEADER] == s[..HEADER];
  }
}
