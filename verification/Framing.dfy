/** Length-prefixed framing between the bridge and its peers. */
module Framing {
  import opened Basics

  type Byte = x: int | 0 <= x < 256

  const MAX_ALLOWED_PACKET_SIZE: nat := 8 * 1024 * 1024
  const SIZE_BYTES: nat := 4
  const SIZE_LIMIT: nat := 0x1_0000_0000
  /** The ASCII tag that announces a PROXY header. */
  const PROX: seq<Byte> := [0x50, 0x52, 0x4F, 0x58]

  /** Four bytes, most significant first. */
  function Pack(n: nat): (b: seq<Byte>)
    requires n < SIZE_LIMIT
    ensures |b| == SIZE_BYTES && Unpack(b) == n
  {
    [n / 256 / 256 / 256, n / 256 / 256 % 256, n / 256 % 256, n % 256]
  }

  function Unpack(b: seq<Byte>): (n: nat)
    requires |b| == SIZE_BYTES
    ensures n < SIZE_LIMIT
  {
    ((b[0] as int * 256 + b[1]) * 256 + b[2]) * 256 + b[3]
  }

  lemma UnpackPack(b: seq<Byte>)
    requires |b| == SIZE_BYTES
    ensures Pack(Unpack(b)) == b
  {
    var two := b[0] as int * 256 + b[1];
    var three := two * 256 + b[2];
    QuotientRemainder(b[0] as int, b[1] as int, 256);
    QuotientRemainder(two, b[2] as int, 256);
    QuotientRemainder(three, b[3] as int, 256);
  }

  /** The first byte that differs decides. */
  ghost predicate Precedes(a: seq<Byte>, b: seq<Byte>)
    requires |a| == |b|
  {
    exists k :: 0 <= k < |a| && a[..k] == b[..k] && a[k] < b[k]
  }

  /** Sizes are ordered as their bytes are: the most significant one comes first. */
  lemma MostSignificantFirst(n: nat, m: nat)
    requires n < SIZE_LIMIT && m < SIZE_LIMIT
    ensures n < m <==> Precedes(Pack(n), Pack(m))
    ensures n < 256 ==> Pack(n) == [0, 0, 0, n]
  {
    var a, b := Pack(n), Pack(m);
    if a[0] != b[0] { DecidedAt(a, b, 0); }
    else if a[1] != b[1] { DecidedAt(a, b, 1); }
    else if a[2] != b[2] { DecidedAt(a, b, 2); }
    else { DecidedAt(a, b, 3); }
  }

  lemma DecidedAt(a: seq<Byte>, b: seq<Byte>, k: nat)
    requires |a| == |b| == SIZE_BYTES && k < SIZE_BYTES
    requires (forall i :: 0 <= i < k ==> a[i] == b[i]) && (k < 3 ==> a[k] != b[k])
    ensures Precedes(a, b) <==> a[k] < b[k]
    ensures Unpack(a) < Unpack(b) <==> a[k] < b[k]
  {
    assert a[..k] == b[..k];
    if i :| 0 <= i < |a| && a[..i] == b[..i] && a[i] < b[i] {
      assert k < i ==> a[..i][k] == b[..i][k];
    }
  }

  /** What `send` puts on the wire for one compressed message. */
  function Frame(payload: seq<Byte>): seq<Byte>
    requires |payload| < SIZE_LIMIT
  {
    Pack(|payload|) + payload
  }

  ghost predicate Sendable(frames: seq<seq<Byte>>) {
    forall i :: 0 <= i < |frames| ==> |frames[i]| < SIZE_LIMIT
  }

  ghost function Wire(frames: seq<seq<Byte>>): seq<Byte>
    requires Sendable(frames)
  {
    if frames == [] then [] else Frame(frames[0]) + Wire(frames[1..])
  }

  /** Sending one more message extends the wire by its frame. */
  lemma {:induction false} WireAppend(frames: seq<seq<Byte>>, payload: seq<Byte>)
    requires Sendable(frames) && |payload| < SIZE_LIMIT
    ensures Sendable(frames + [payload]) && Wire(frames + [payload]) == Wire(frames) + Frame(payload)
  {
    if frames == [] {
      assert [payload][1..] == [];
    } else {
      assert (frames + [payload])[1..] == frames[1..] + [payload];
      WireAppend(frames[1..], payload);
      Associate(Frame(frames[0]), Wire(frames[1..]), Frame(payload));
    }
  }

  // ---------- what the receiver makes of a stream ----------

  /** How handling ends: at the end of the stream, on a size beyond the limit, on a payload
      that does not decompress, or never, reading empty chunks inside a packet. */
  datatype End = Closed | TooLarge | Malformed | Starved

  datatype Trace = Trace(delivered: seq<seq<Byte>>, end: End)

  function Prepend(payload: seq<Byte>, t: Trace): Trace {
    Trace([payload] + t.delivered, t.end)
  }

  /** The meaning of a byte stream, independent of how it arrives; `inflates` says which
      payloads decompress. */
  function Parse(stream: seq<Byte>, inflates: seq<Byte> -> bool): Trace {
    if |stream| < SIZE_BYTES then Trace([], Closed)
    else
      var size := Unpack(stream[..SIZE_BYTES]);
      if size > MAX_ALLOWED_PACKET_SIZE then Trace([], TooLarge)
      else if |stream| < SIZE_BYTES + size then Trace([], Starved)
      else
        var payload := stream[SIZE_BYTES..SIZE_BYTES + size];
        if !inflates(payload) then Trace([], Malformed)
        else Prepend(payload, Parse(stream[SIZE_BYTES + size..], inflates))
  }

  /** The peer's end of the connection; `stream` is what it will still send. */
  class Connection {
    var stream: seq<Byte>

    constructor (stream: seq<Byte>)
      ensures this.stream == stream
    {
      this.stream := stream;
    }

    /** Write one message; the stream grows by its frame. */
    method Send(payload: seq<Byte>)
      requires |payload| < SIZE_LIMIT
      modifies this
      ensures stream == old(stream) + Frame(payload)
    {
      stream := stream + (Pack(|payload|) + payload);
    }

    /** Write the messages one by one. */
    method SendAll(frames: seq<seq<Byte>>)
      requires Sendable(frames)
      modifies this
      ensures stream == old(stream) + Wire(frames)
    {
      assert frames[..0] == [] && stream + [] == stream;
      for i := 0 to |frames|
        invariant Sendable(frames[..i]) && stream == old(stream) + Wire(frames[..i])
      {
        Send(frames[i]);
        WireAppend(frames[..i], frames[i]);
        Associate(old(stream), Wire(frames[..i]), Frame(frames[i]));
        assert frames[..i + 1] == frames[..i] + [frames[i]];
      }
      assert frames[..|frames|] == frames;
    }

    /** Any nonempty piece of what is left, at most n bytes; empty only at the end. */
    method Recv(n: nat) returns (chunk: seq<Byte>)
      requires n > 0
      modifies this
      ensures |chunk| <= n && old(stream) == chunk + stream
      ensures chunk == [] <==> old(stream) == []
    {
      if stream == [] { return []; }
      var k :| 1 <= k <= n && k <= |stream|;
      chunk := stream[..k];
      stream := stream[k..];
    }

    /** None when the stream ends before four bytes have come. */
    method ReadSize() returns (header: seq<Byte>)
      modifies this
      ensures old(stream) == header + stream && |header| <= SIZE_BYTES
      ensures |header| < SIZE_BYTES ==> stream == []
    {
      header := [];
      while |header| < SIZE_BYTES
        invariant old(stream) == header + stream && |header| <= SIZE_BYTES
        decreases SIZE_BYTES - |header|
      {
        var chunk := Recv(SIZE_BYTES - |header|);
        if chunk == [] { return; }
        header := header + chunk;
      }
    }

    /** The payload; `starved` when the stream ends first, where the source reads forever. */
    method ReadPayload(size: nat) returns (payload: seq<Byte>, starved: bool)
      modifies this
      ensures old(stream) == payload + stream
      ensures starved <==> |old(stream)| < size
      ensures !starved ==> |payload| == size
    {
      payload, starved := [], false;
      var remainder: nat := size;
      while remainder > 0
        invariant old(stream) == payload + stream && |payload| + remainder == size && !starved
      {
        var chunk := Recv(remainder);
        if chunk == [] { return payload, true; }
        remainder := remainder - |chunk|;
        payload := payload + chunk;
      }
    }

    /** The main loop for a peer whose first four bytes are not taken for a PROXY header. */
    method Handle(inflates: seq<Byte> -> bool, proxied: bool) returns (t: Trace)
      requires !(proxied && |stream| >= SIZE_BYTES && stream[..SIZE_BYTES] == PROX)
      modifies this
      ensures t == Parse(old(stream), inflates)
    {
      ghost var all := Parse(stream, inflates);
      var delivered: seq<seq<Byte>> := [];
      while true
        invariant all == Trace(delivered + Parse(stream, inflates).delivered, Parse(stream, inflates).end)
        decreases |stream|
      {
        ghost var before := stream;
        var header := ReadSize();
        if |header| < SIZE_BYTES { return Trace(delivered, Closed); }
        assert before[..SIZE_BYTES] == header && before[SIZE_BYTES..] == stream;
        var size := Unpack(header);
        if size > MAX_ALLOWED_PACKET_SIZE { return Trace(delivered, TooLarge); }
        var payload, starved := ReadPayload(size);
        if starved { return Trace(delivered, Starved); }
        assert before[SIZE_BYTES..SIZE_BYTES + size] == payload && before[SIZE_BYTES + size..] == stream;
        if !inflates(payload) { return Trace(delivered, Malformed); }
        DeliverOne(delivered, payload, Parse(stream, inflates));
        delivered := delivered + [payload];
      }
    }
  }

  lemma DeliverOne(delivered: seq<seq<Byte>>, payload: seq<Byte>, t: Trace)
    ensures delivered + Prepend(payload, t).delivered == (delivered + [payload]) + t.delivered
  {
  }

  // ---------- round trip ----------

  ghost predicate Acceptable(frame: seq<Byte>, inflates: seq<Byte> -> bool) {
    |frame| <= MAX_ALLOWED_PACKET_SIZE && inflates(frame)
  }

  /** One frame at the front of a stream. */
  lemma ParseFrame(frame: seq<Byte>, rest: seq<Byte>, inflates: seq<Byte> -> bool)
    requires |frame| < SIZE_LIMIT
    ensures Parse(Frame(frame) + rest, inflates) ==
      if |frame| > MAX_ALLOWED_PACKET_SIZE then Trace([], TooLarge)
      else if !inflates(frame) then Trace([], Malformed)
      else Prepend(frame, Parse(rest, inflates))
  {
  }

  /** Everything up to the first unacceptable frame is delivered, in order. */
  function Prefix(frames: seq<seq<Byte>>, inflates: seq<Byte> -> bool): seq<seq<Byte>> {
    if frames == [] || |frames[0]| > MAX_ALLOWED_PACKET_SIZE || !inflates(frames[0]) then []
    else [frames[0]] + Prefix(frames[1..], inflates)
  }

  lemma {:induction false} ParseWire(frames: seq<seq<Byte>>, inflates: seq<Byte> -> bool)
    requires Sendable(frames)
    ensures var t := Parse(Wire(frames), inflates);
      && t.delivered == Prefix(frames, inflates)
      && (t.end == Closed <==> Prefix(frames, inflates) == frames)
  {
    if frames != [] {
      ParseFrame(frames[0], Wire(frames[1..]), inflates);
      ParseWire(frames[1..], inflates);
    }
  }

  lemma {:induction false} PrefixIsAll(frames: seq<seq<Byte>>, inflates: seq<Byte> -> bool)
    ensures Prefix(frames, inflates) == frames <==> forall i :: 0 <= i < |frames| ==> Acceptable(frames[i], inflates)
  {
    if frames != [] {
      PrefixIsAll(frames[1..], inflates);
      assert frames == [frames[0]] + frames[1..];
    }
  }

  /** Framing round trip, for every way the stream is cut into chunks: the receiver delivers
      exactly the frames sent, in order, and ends with the stream, if and only if every frame is
      within the size limit and decompresses. */
  lemma RoundTrip(frames: seq<seq<Byte>>, inflates: seq<Byte> -> bool)
    requires Sendable(frames)
    ensures Parse(Wire(frames), inflates) == Trace(frames, Closed) <==>
              forall i :: 0 <= i < |frames| ==> Acceptable(frames[i], inflates)
  {
    ParseWire(frames, inflates);
    PrefixIsAll(frames, inflates);
  }

  /** A frame within the limit never begins like a PROXY header, so acceptable frames are never
      taken for one. */
  lemma NeverProxy(frames: seq<seq<Byte>>)
    requires Sendable(frames) && frames != [] && |frames[0]| <= MAX_ALLOWED_PACKET_SIZE
    ensures |Wire(frames)| >= SIZE_BYTES && Wire(frames)[..SIZE_BYTES] != PROX
  {
  }

  /** End to end: one peer sends the messages, the other handles what arrives, however it is cut
      into chunks.  Exactly the messages before the first unacceptable one are delivered, so all
      of them and a clean end if and only if every one is acceptable. */
  method Exchange(frames: seq<seq<Byte>>, inflates: seq<Byte> -> bool, proxied: bool) returns (t: Trace)
    requires Sendable(frames) && (proxied && frames != [] ==> |frames[0]| <= MAX_ALLOWED_PACKET_SIZE)
    ensures t.delivered == Prefix(frames, inflates)
    ensures t == Trace(frames, Closed) <==> forall i :: 0 <= i < |frames| ==> Acceptable(frames[i], inflates)
  {
    var c := new Connection([]);
    c.SendAll(frames);
    assert c.stream == Wire(frames);
    if frames != [] && |frames[0]| <= MAX_ALLOWED_PACKET_SIZE { NeverProxy(frames); }
    t := c.Handle(inflates, proxied);
    ParseWire(frames, inflates);
    RoundTrip(frames, inflates);
  }
}
