/** The server side of the WebSocket framing protocol, sections 5.2 to 5.5 of RFC 6455
    (internal/nativews/conn.go): frames, masking, fragmentation and control frames. */
module NativeWS {
  import opened Commons
  import opened Bytes

  const CONTINUATION := 0
  const TEXT := 1
  const BINARY := 2
  const CLOSE := 8
  const PING := 9
  const PONG := 10

  datatype Frame = Frame(fin: bool, op: nat, payload: bytes)

  // -------------------------------------------------------------------------
  // Big-endian numbers

  /** The value of a run of bytes, most significant first. */
  function BigEndian(s: bytes): nat {
    if s == [] then 0 else BigEndian(s[..|s| - 1]) * 256 + s[|s| - 1]
  }

  function Pow256(k: nat): (p: nat)
    ensures p > 0
  {
    if k == 0 then 1 else 256 * Pow256(k - 1)
  }

  /** The low `k` bytes of `n`. */
  function LowBytes(n: nat, k: nat): (s: bytes)
    ensures |s| == k
  {
    if k == 0 then [] else LowBytes(n / 256, k - 1) + [n % 256]
  }

  lemma {:induction false} LowBytesValue(n: nat, k: nat)
    requires n < Pow256(k)
    ensures BigEndian(LowBytes(n, k)) == n
  {
    if k > 0 {
      LowBytesValue(n / 256, k - 1);
      var s := LowBytes(n, k);
      assert s[..|s| - 1] == LowBytes(n / 256, k - 1);
    }
  }

  lemma {:induction false} BigEndianBound(s: bytes)
    ensures BigEndian(s) < Pow256(|s|)
  {
    if s != [] {
      BigEndianBound(s[..|s| - 1]);
    }
  }

  lemma {:induction false} LeadingZeros(z: bytes, s: bytes)
    requires forall i :: 0 <= i < |z| ==> z[i] == 0
    ensures BigEndian(z + s) == BigEndian(s)
  {
    if s != [] {
      LeadingZeros(z, s[..|s| - 1]);
      assert (z + s)[..|z + s| - 1] == z + s[..|s| - 1];
    } else if z != [] {
      LeadingZeros(z[..|z| - 1], []);
      assert z + s == z && z[..|z| - 1] + [] == z[..|z| - 1];
    }
  }

  lemma PowersOf256()
    ensures Pow256(1) == 256 && Pow256(2) == 0x1_0000 && Pow256(4) == 0x1_0000_0000
    ensures Pow256(8) == 0x1_0000_0000_0000_0000
  {
    assert Pow256(2) == 256 * Pow256(1);
    assert Pow256(4) == 256 * Pow256(3) == 256 * 256 * Pow256(2);
    assert Pow256(6) == 256 * Pow256(5) == 256 * 256 * Pow256(4);
    assert Pow256(8) == 256 * Pow256(7) == 256 * 256 * Pow256(6);
  }

  // -------------------------------------------------------------------------
  // Masking

  function Masked(data: bytes, key: bytes): (r: bytes)
    requires |key| == 4
    ensures |r| == |data|
  {
    seq(|data|, i requires 0 <= i < |data| => Xor(data[i], key[i % 4]))
  }

  /** Byte `i` is the bitwise exclusive or with byte `i` modulo 4 of the key. */
  lemma MaskedIsBitwise(data: bytes, key: bytes, i: nat, bit: nat)
    requires |key| == 4 && i < |data| && bit < 8
    ensures Bit(Masked(data, key)[i], bit) == 1 <==> Bit(data[i], bit) != Bit(key[i % 4], bit)
  {
    XorIsBitwise(data[i], key[i % 4], bit);
  }

  /** Masking is its own inverse. */
  lemma MaskedTwice(data: bytes, key: bytes)
    requires |key| == 4
    ensures Masked(Masked(data, key), key) == data
  {
    forall i | 0 <= i < |data|
      ensures Masked(Masked(data, key), key)[i] == data[i]
    {
      XorInvolution(data[i], key[i % 4]);
    }
  }

  // -------------------------------------------------------------------------
  // The length field

  /** How many extension bytes follow the 7-bit length. */
  function ExtSize(len7: nat): nat {
    if len7 == 126 then 2 else if len7 == 127 then 8 else 0
  }

  /** The length denoted by a 7-bit length and its extension. */
  function LengthValue(len7: nat, ext: bytes): nat {
    if ExtSize(len7) == 0 then len7 else BigEndian(ext)
  }

  /** A complete length field: the 7-bit length and its extension. */
  datatype LengthField = LengthField(len7: nat, ext: bytes)

  predicate ProperField(f: LengthField) {
    f.len7 < 128 && |f.ext| == ExtSize(f.len7)
  }

  /** The length field `writeFrame` emits for a payload of `n` bytes. */
  function WrittenLength(n: nat): (f: LengthField)
    ensures ProperField(f)
  {
    if n <= 125 then LengthField(n, [])
    else if n <= 65535 then LengthField(126, LowBytes(n, 2))
    else LengthField(127, [0, 0, 0, 0] + LowBytes(n, 4))
  }

  /** The written length field denotes the payload length exactly when the payload is shorter than 2^32
      bytes: the code writes only the low four bytes of longer lengths. */
  lemma WrittenLengthCorrectIff(n: nat)
    ensures var f := WrittenLength(n); LengthValue(f.len7, f.ext) == n <==> n < 0x1_0000_0000
  {
    PowersOf256();
    if 125 < n <= 65535 {
      LowBytesValue(n, 2);
    } else if n > 65535 {
      LeadingZeros([0, 0, 0, 0], LowBytes(n, 4));
      if n < 0x1_0000_0000 {
        LowBytesValue(n, 4);
      } else {
        BigEndianBound(LowBytes(n, 4));
      }
    }
  }

  /** No length field for the same length is shorter. */
  lemma WrittenLengthIsShortest(n: nat, f: LengthField)
    requires n < 0x1_0000_0000 && ProperField(f) && LengthValue(f.len7, f.ext) == n
    ensures |WrittenLength(n).ext| <= |f.ext|
  {
    PowersOf256();
    if f.len7 == 126 {
      BigEndianBound(f.ext);
    }
  }

  // -------------------------------------------------------------------------
  // Reading a frame

  /** `rest` is the input left over; a read that runs into the end of the input uses it up. */
  datatype FrameResult =
    | Got(frame: Frame, rest: bytes)
    | Eof(rest: bytes)
    | NotMasked(rest: bytes)
    | BadLength(rest: bytes)

  /** The masking key and a payload of `n` bytes. A 64-bit length with the top bit set is negative in
      the source, which cannot allocate it. */
  function ParsePayload(s: bytes, fin: bool, op: nat, n: nat): FrameResult {
    if |s| < 4 then Eof([])
    else if n > MAX_INT then BadLength(s[4..])
    else if |s| < 4 + n then Eof([])
    else Got(Frame(fin, op, Masked(s[4..4 + n], s[..4])), s[4 + n..])
  }

  /** `readFrame` on the bytes still to come. */
  function ParseFrame(s: bytes): FrameResult {
    if |s| < 2 then Eof([])
    else
      var ext := ExtSize(s[1] % 128);
      if |s| < 2 + ext then Eof([])
      else if s[1] < 128 then NotMasked(s[2 + ext..])
      else ParsePayload(s[2 + ext..], s[0] >= 128, s[0] % 16, LengthValue(s[1] % 128, s[2..2 + ext]))
  }

  lemma ParseFrameShrinks(s: bytes)
    ensures ParseFrame(s).Got? ==> |ParseFrame(s).rest| < |s|
  {
  }

  /** The length field a client uses: the shortest form. */
  function ClientLength(n: nat): (f: LengthField)
    ensures ProperField(f)
  {
    if n <= 125 then LengthField(n, [])
    else if n <= 65535 then LengthField(126, LowBytes(n, 2))
    else LengthField(127, LowBytes(n, 8))
  }

  lemma ClientLengthValue(n: nat)
    requires n <= MAX_INT
    ensures var f := ClientLength(n); LengthValue(f.len7, f.ext) == n
  {
    PowersOf256();
    if 125 < n <= 65535 {
      LowBytesValue(n, 2);
    } else if n > 65535 {
      LowBytesValue(n, 8);
    }
  }

  /** A frame as a client sends it, masked with `key`. */
  function ClientFrame(f: Frame, key: bytes): bytes
    requires f.op < 16 && |key| == 4
  {
    var len := ClientLength(|f.payload|);
    [(if f.fin then 128 else 0) + f.op, 128 + len.len7] + (len.ext + (key + Masked(f.payload, key)))
  }

  lemma SliceParts(h: bytes, ext: bytes, after: bytes, rest: bytes)
    requires |h| == 2
    ensures var s := h + (ext + after) + rest;
            && s[..2] == h && s[2..2 + |ext|] == ext && s[2 + |ext|..] == after + rest
            && |s| == 2 + |ext| + |after| + |rest|
  {
  }

  lemma ParseClientPayload(f: Frame, key: bytes, rest: bytes)
    requires |key| == 4 && |f.payload| <= MAX_INT
    ensures ParsePayload(key + Masked(f.payload, key) + rest, f.fin, f.op, |f.payload|) == Got(f, rest)
  {
    hide Masked;
    var n, body := |f.payload|, Masked(f.payload, key);
    var s := key + body + rest;
    assert s[..4] == key && s[4..4 + n] == body && s[4 + n..] == rest;
    MaskedTwice(f.payload, key);
  }

  /** Reading undoes sending: the frame comes back unmasked and exactly its bytes are consumed. */
  lemma ParseClientFrame(f: Frame, key: bytes, rest: bytes)
    requires f.op < 16 && |key| == 4 && |f.payload| <= MAX_INT
    ensures ParseFrame(ClientFrame(f, key) + rest) == Got(f, rest)
  {
    hide Masked, LowBytes, BigEndian, LengthValue, ClientLength, ParsePayload;
    var len := ClientLength(|f.payload|);
    var h: bytes := [(if f.fin then 128 else 0) + f.op, 128 + len.len7];
    var s := ClientFrame(f, key) + rest;
    SliceParts(h, len.ext, key + Masked(f.payload, key), rest);
    assert s[0] == s[..2][0] == h[0] && s[1] == s[..2][1] == h[1];
    ClientLengthValue(|f.payload|);
    ParseClientPayload(f, key, rest);
  }

  // -------------------------------------------------------------------------
  // Reading a message

  /** A frame as the server sends it. */
  function ServerFrame(fin: bool, op: nat, payload: bytes): bytes
    requires op < 16
  {
    var len := WrittenLength(|payload|);
    [(if fin then 128 else 0) + op, len.len7] + len.ext + payload
  }

  /** A client's reader of the frames that the server sends. */
  function ParseServerFrame(s: bytes): Option<(Frame, bytes)> {
    if |s| < 2 || s[1] >= 128 then None
    else
      var at := 2 + ExtSize(s[1]);
      if |s| < at then None
      else
        var n := LengthValue(s[1], s[2..at]);
        if |s| < at + n then None else Some((Frame(s[0] >= 128, s[0] % 16, s[at..at + n]), s[at + n..]))
  }

  /** What the server writes reads back as the same frame, with exactly the bytes after it left over, if and
      only if the payload is shorter than 2^32 bytes. */
  lemma ServerFrameReadsBackIff(fin: bool, op: nat, payload: bytes, rest: bytes)
    requires op < 16
    ensures ParseServerFrame(ServerFrame(fin, op, payload) + rest) == Some((Frame(fin, op, payload), rest))
            <==> |payload| < 0x1_0000_0000
  {
    hide WrittenLength, LengthValue;
    var len := WrittenLength(|payload|);
    var h: bytes := [(if fin then 128 else 0) + op, len.len7];
    var s := ServerFrame(fin, op, payload) + rest;
    assert s == h + (len.ext + payload) + rest;
    SliceParts(h, len.ext, payload, rest);
    assert s[0] == s[..2][0] == h[0] && s[1] == s[..2][1] == h[1];
    WrittenLengthCorrectIff(|payload|);
    var at := 2 + |len.ext|;
    assert s[at..] == payload + rest;
    if |payload| < 0x1_0000_0000 {
      assert s[at..at + |payload|] == s[at..][..|payload|] == payload;
      assert s[at + |payload|..] == s[at..][|payload|..] == rest;
    }
  }

  datatype MessageResult =
    | Message(op: nat, payload: bytes)
    | ReadFailed(why: FrameResult)
    | PeerClosed
    | UnexpectedOpcode(op: nat)
    | TooLarge
    | BadFirstOpcode

  /** Outcome of reading one message: the result, the bytes written in reply, the pong payloads passed to
      the handler, and the input left over. */
  datatype Reading = Reading(result: MessageResult, sent: bytes, pongs: seq<bytes>, rest: bytes)

  function Sending(frame: bytes, r: Reading): Reading {
    r.(sent := frame + r.sent)
  }

  function Ponged(payload: bytes, r: Reading): Reading {
    r.(pongs := [payload] + r.pongs)
  }

  /** The same reading with replies and pongs that went before. */
  function Prefixed(sent: bytes, heard: seq<bytes>, r: Reading): Reading {
    r.(sent := sent + r.sent, pongs := heard + r.pongs)
  }

  lemma PrefixedStep(sent: bytes, heard: seq<bytes>, frame: bytes, payload: bytes, r: Reading)
    ensures Prefixed([], [], r) == r
    ensures Prefixed(sent, heard, Sending(frame, r)) == Prefixed(sent + frame, heard, r)
    ensures Prefixed(sent, heard, Ponged(payload, r)) == Prefixed(sent, heard + [payload], r)
  {
  }

  /** `ReadMessage` with `op` and `buf` read so far (`op` is 0 before the first data frame). */
  function ReadFrom(s: bytes, limit: int, op: nat, buf: bytes): Reading
    decreases |s|
  {
    ParseFrameShrinks(s);
    match ParseFrame(s)
    case Got(f, rest) =>
      if f.op == PING then Sending(ServerFrame(true, PONG, f.payload), ReadFrom(rest, limit, op, buf))
      else if f.op == PONG then Ponged(f.payload, ReadFrom(rest, limit, op, buf))
      else if f.op == CLOSE then Reading(PeerClosed, ServerFrame(true, CLOSE, []), [], rest)
      else if op != 0 && f.op != CONTINUATION then Reading(UnexpectedOpcode(f.op), [], [], rest)
      else
        var op' := if op == 0 then f.op else op;
        var buf' := buf + f.payload;
        if limit > 0 && |buf'| > limit then Reading(TooLarge, [], [], rest)
        else if !f.fin then ReadFrom(rest, limit, op', buf')
        else if op' != TEXT && op' != BINARY then Reading(BadFirstOpcode, [], [], rest)
        else Reading(Message(op', buf'), [], [], rest)
    case e => Reading(ReadFailed(e), [], [], e.rest)
  }

  /** One round of the loop. */
  lemma ReadRound(s: bytes, limit: int, op: nat, buf: bytes)
    ensures var r, got := ReadFrom(s, limit, op, buf), ParseFrame(s);
            if !got.Got? then r == Reading(ReadFailed(got), [], [], got.rest)
            else
              var f, rest := got.frame, got.rest; var op', buf' := if op == 0 then f.op else op, buf + f.payload;
              if f.op == PING then r == Sending(ServerFrame(true, PONG, f.payload), ReadFrom(rest, limit, op, buf))
              else if f.op == PONG then r == Ponged(f.payload, ReadFrom(rest, limit, op, buf))
              else if f.op == CLOSE then r == Reading(PeerClosed, ServerFrame(true, CLOSE, []), [], rest)
              else if op != 0 && f.op != CONTINUATION then r == Reading(UnexpectedOpcode(f.op), [], [], rest)
              else if limit > 0 && |buf'| > limit then r == Reading(TooLarge, [], [], rest)
              else if !f.fin then r == ReadFrom(rest, limit, op', buf')
              else r == Reading(if op' == TEXT || op' == BINARY then Message(op', buf') else BadFirstOpcode, [], [],
                                rest)
  {
    hide ParseFrame, ServerFrame;
  }

  // -------------------------------------------------------------------------
  // Well-formed messages

  datatype MaskedFrame = MaskedFrame(frame: Frame, key: bytes)

  /** A frame with a four-bit opcode and a four-byte masking key. */
  type Sent = x: MaskedFrame | x.frame.op < 16 && |x.key| == 4 witness MaskedFrame(Frame(true, 0, []), [0, 0, 0, 0])

  /** A run of client frames that carries one message: a text or binary frame, then continuation frames,
      of which only the last is final, with pings and pongs anywhere before the last one. */
  ghost predicate WellFormed(items: seq<Sent>, started: bool) {
    && items != []
    && |items[0].frame.payload| <= MAX_INT
    && var f := items[0].frame;
       if f.op == PING || f.op == PONG then f.fin && |f.payload| <= 125 && WellFormed(items[1..], started)
       else
         && (if started then f.op == CONTINUATION else f.op == TEXT || f.op == BINARY)
         && (if f.fin then |items| == 1 else WellFormed(items[1..], true))
  }

  function Wire(items: seq<Sent>): bytes {
    if items == [] then [] else ClientFrame(items[0].frame, items[0].key) + Wire(items[1..])
  }

  lemma WireFirst(items: seq<Sent>, tail: bytes)
    requires items != []
    ensures Wire(items) + tail == ClientFrame(items[0].frame, items[0].key) + (Wire(items[1..]) + tail)
  {
  }

  lemma WireNone(tail: bytes)
    ensures Wire([]) + tail == tail
  {
  }

  predicate IsControl(f: Frame) {
    f.op == PING || f.op == PONG
  }

  function PayloadOf(items: seq<Sent>): bytes {
    if items == [] then []
    else (if IsControl(items[0].frame) then [] else items[0].frame.payload) + PayloadOf(items[1..])
  }

  /** The opcode of the message. */
  function FirstOp(items: seq<Sent>): nat {
    if items == [] then 0 else if IsControl(items[0].frame) then FirstOp(items[1..]) else items[0].frame.op
  }

  /** The replies owed for the pings, in order. */
  function Replies(items: seq<Sent>): bytes {
    if items == [] then []
    else (if items[0].frame.op == PING then ServerFrame(true, PONG, items[0].frame.payload) else [])
         + Replies(items[1..])
  }

  function PongsOf(items: seq<Sent>): seq<bytes> {
    if items == [] then []
    else (if items[0].frame.op == PONG then [items[0].frame.payload] else []) + PongsOf(items[1..])
  }

  ghost predicate Within(limit: int, n: nat) {
    limit > 0 ==> n <= limit
  }

  /** The rest of a message, read with `op` and `buf` already collected. */
  lemma {:induction false} ReadRest(items: seq<Sent>, tail: bytes, limit: int, op: nat, buf: bytes)
    requires WellFormed(items, op != 0) && (op == 0 || op == TEXT || op == BINARY)
    requires Within(limit, |buf + PayloadOf(items)|)
    ensures ReadFrom(Wire(items) + tail, limit, op, buf)
            == Reading(Message(if op == 0 then FirstOp(items) else op, buf + PayloadOf(items)),
                       Replies(items), PongsOf(items), tail)
    decreases |items|
  {
    hide ClientFrame, ParseFrame, ServerFrame, Wire;
    var f, key, rest := items[0].frame, items[0].key, items[1..];
    WireFirst(items, tail);
    ParseClientFrame(f, key, Wire(rest) + tail);
    if IsControl(f) {
      assert PayloadOf(items) == PayloadOf(rest);
      assert f.op == PING ==> PongsOf(items) == PongsOf(rest);
      assert f.op == PONG ==> Replies(items) == Replies(rest);
      ReadRest(rest, tail, limit, op, buf);
    } else if f.fin {
      WireNone(tail);
      assert rest == [];
      assert PayloadOf(items) == f.payload && Replies(items) == [] && PongsOf(items) == [];
    } else {
      assert buf + PayloadOf(items) == (buf + f.payload) + PayloadOf(rest);
      ReadRest(rest, tail, limit, if op == 0 then f.op else op, buf + f.payload);
    }
  }

  /** Reassembly: a well-formed run of masked fragments, with pings and pongs interleaved, is read as one
      message with the first opcode and the concatenated payload; every ping is answered with its own
      payload, in order; exactly the bytes of the run are consumed. */
  lemma MessageReassembled(items: seq<Sent>, tail: bytes, limit: int)
    requires WellFormed(items, false) && Within(limit, |PayloadOf(items)|)
    ensures ReadFrom(Wire(items) + tail, limit, 0, [])
            == Reading(Message(FirstOp(items), PayloadOf(items)), Replies(items), PongsOf(items), tail)
  {
    assert [] + PayloadOf(items) == PayloadOf(items);
    ReadRest(items, tail, limit, 0, []);
  }

  /** A message longer than a positive limit is refused, wherever in the run the limit is crossed. */
  lemma {:induction false} OversizeRefused(items: seq<Sent>, tail: bytes, limit: int, op: nat, buf: bytes)
    requires WellFormed(items, op != 0) && (op == 0 || op == TEXT || op == BINARY)
    requires limit > 0 && |buf| <= limit < |buf + PayloadOf(items)|
    ensures ReadFrom(Wire(items) + tail, limit, op, buf).result == TooLarge
    decreases |items|
  {
    hide ClientFrame, ParseFrame, ServerFrame, Wire;
    var f, key, rest := items[0].frame, items[0].key, items[1..];
    WireFirst(items, tail);
    ParseClientFrame(f, key, Wire(rest) + tail);
    if IsControl(f) {
      OversizeRefused(rest, tail, limit, op, buf);
    } else if |buf + f.payload| <= limit {
      assert buf + PayloadOf(items) == (buf + f.payload) + PayloadOf(rest);
      OversizeRefused(rest, tail, limit, if op == 0 then f.op else op, buf + f.payload);
    }
  }

  /** The payloads of the pings, in order. */
  function Pings(items: seq<Sent>): seq<bytes> {
    if items == [] then []
    else (if items[0].frame.op == PING then [items[0].frame.payload] else []) + Pings(items[1..])
  }

  /** The first `k` frames that the server has written, and the bytes after them. */
  function ReadServerFrames(s: bytes, k: nat): Option<(seq<Frame>, bytes)> {
    if k == 0 then Some(([], s))
    else match ParseServerFrame(s)
         case None => None
         case Some((f, rest)) =>
           match ReadServerFrames(rest, k - 1)
           case None => None
           case Some((fs, tail)) => Some(([f] + fs, tail))
  }

  function PongFrames(payloads: seq<bytes>): seq<Frame> {
    seq(|payloads|, i requires 0 <= i < |payloads| => Frame(true, PONG, payloads[i]))
  }

  /** The replies to a well-formed run are, to the client, one final pong per ping with the ping's payload, in
      order and nothing else. */
  lemma {:induction false} RepliesReadBack(items: seq<Sent>, started: bool, rest: bytes)
    requires WellFormed(items, started)
    ensures ReadServerFrames(Replies(items) + rest, |Pings(items)|) == Some((PongFrames(Pings(items)), rest))
    decreases |items|
  {
    hide ParseServerFrame, ServerFrame, ReadServerFrames, PongFrames;
    var f, more := items[0].frame, items[1..];
    if more == [] {
      NoReplies(rest);
    } else {
      RepliesReadBack(more, if IsControl(f) then started else true, rest);
    }
    if f.op == PING {
      assert Replies(items) + rest == ServerFrame(true, PONG, f.payload) + (Replies(more) + rest);
      OneMoreReply(f.payload, Replies(more) + rest, Pings(more), rest);
    } else {
      assert Replies(items) == Replies(more) && Pings(items) == Pings(more);
    }
  }

  lemma NoReplies(rest: bytes)
    ensures ReadServerFrames(Replies([]) + rest, |Pings([])|) == Some((PongFrames(Pings([])), rest))
  {
    assert Replies([]) + rest == rest && PongFrames([]) == [];
  }

  lemma OneMoreReply(payload: bytes, s: bytes, pings: seq<bytes>, rest: bytes)
    requires |payload| <= 125 && ReadServerFrames(s, |pings|) == Some((PongFrames(pings), rest))
    ensures ReadServerFrames(ServerFrame(true, PONG, payload) + s, |[payload] + pings|)
            == Some((PongFrames([payload] + pings), rest))
  {
    hide ParseServerFrame, ServerFrame;
    ServerFrameReadsBackIff(true, PONG, payload, s);
    assert PongFrames([payload] + pings) == [Frame(true, PONG, payload)] + PongFrames(pings);
  }

  // -------------------------------------------------------------------------
  // Input that is refused

  /** A close frame is answered with an empty close frame and ends reading. */
  lemma CloseAnswered(fin: bool, payload: bytes, key: bytes, s: bytes, limit: int, op: nat, buf: bytes)
    requires |key| == 4 && |payload| <= MAX_INT
    ensures ReadFrom(ClientFrame(Frame(fin, CLOSE, payload), key) + s, limit, op, buf)
            == Reading(PeerClosed, [0x88, 0x00], [], s)
  {
    hide ClientFrame, ParseFrame;
    ParseClientFrame(Frame(fin, CLOSE, payload), key, s);
  }

  /** While a message is incomplete, a data frame that does not continue it is refused. */
  lemma InterleavedDataRefused(fin: bool, op2: nat, payload: bytes, key: bytes, s: bytes, limit: int, op: nat,
                               buf: bytes)
    requires |key| == 4 && |payload| <= MAX_INT && op != 0
    requires 0 < op2 < 8
    ensures ReadFrom(ClientFrame(Frame(fin, op2, payload), key) + s, limit, op, buf)
            == Reading(UnexpectedOpcode(op2), [], [], s)
  {
    hide ClientFrame, ParseFrame;
    ParseClientFrame(Frame(fin, op2, payload), key, s);
  }

  /** A message of one frame is read exactly when its opcode is text or binary. */
  lemma SingleFrameReadIff(op: nat, payload: bytes, key: bytes, s: bytes, limit: int)
    requires |key| == 4 && |payload| <= MAX_INT && op < 8 && Within(limit, |payload|)
    ensures ReadFrom(ClientFrame(Frame(true, op, payload), key) + s, limit, 0, [])
            == Reading(if op == 1 || op == 2 then Message(op, payload) else BadFirstOpcode, [], [], s)
  {
    hide ClientFrame, ParseFrame;
    ParseClientFrame(Frame(true, op, payload), key, s);
    assert [] + payload == payload;
  }

  /** A frame that is not masked is refused. */
  lemma UnmaskedRefused(fin: bool, op: nat, payload: bytes, s: bytes, limit: int, op0: nat, buf: bytes)
    requires op < 16
    ensures var r := ReadFrom(ServerFrame(fin, op, payload) + s, limit, op0, buf);
            r.result.ReadFailed? && r.result.why.NotMasked? && r.sent == [] && r.pongs == []
  {
    hide WrittenLength;
    var len := WrittenLength(|payload|);
    var h: bytes := [(if fin then 128 else 0) + op, len.len7];
    var t := ServerFrame(fin, op, payload) + s;
    assert t == h + (len.ext + payload) + s;
    SliceParts(h, len.ext, payload, s);
    assert t[1] == t[..2][1] == h[1];
  }

  /** A frame that announces 2^63 bytes or more is refused before its payload is read. */
  lemma HugeLengthRefused(b0: byte, ext: bytes, key: bytes, more: bytes)
    requires |ext| == 8 && ext[0] >= 128 && |key| == 4
    ensures ParseFrame([b0, 255] + (ext + key) + more) == BadLength(more)
  {
    hide BigEndian;
    var s: bytes := [b0, 255] + (ext + key) + more;
    SliceParts([b0, 255], ext, key, more);
    assert s[1] == s[..2][1];
    assert (key + more)[4..] == more;
    TopBit(ext);
  }

  lemma {:induction false} BigEndianFirst(s: bytes)
    requires s != []
    ensures BigEndian(s) >= s[0] * Pow256(|s| - 1)
  {
    if |s| > 1 {
      var init := s[..|s| - 1];
      BigEndianFirst(init);
      assert Pow256(|s| - 1) == 256 * Pow256(|s| - 2);
      assert s[0] * Pow256(|s| - 2) * 256 == s[0] * Pow256(|s| - 1);
    } else {
      assert s[..0] == [];
    }
  }

  lemma TopBit(ext: bytes)
    requires |ext| == 8 && ext[0] >= 128
    ensures BigEndian(ext) > MAX_INT
  {
    BigEndianFirst(ext);
    PowersOf256();
    assert Pow256(8) == 256 * Pow256(7);
  }

  /** A frame that breaks off anywhere is an end of input, not a message. */
  lemma TruncatedIsEof(f: Frame, key: bytes, k: nat)
    requires f.op < 16 && |key| == 4 && |f.payload| <= MAX_INT && k < |ClientFrame(f, key)|
    ensures ParseFrame(ClientFrame(f, key)[..k]) == Eof([])
  {
    hide Masked, LowBytes, LengthValue, ClientLength;
    var len := ClientLength(|f.payload|);
    var whole := ClientFrame(f, key);
    var s := whole[..k];
    var h: bytes := [(if f.fin then 128 else 0) + f.op, 128 + len.len7];
    assert whole == h + (len.ext + (key + Masked(f.payload, key))) + [];
    SliceParts(h, len.ext, key + Masked(f.payload, key), []);
    ClientLengthValue(|f.payload|);
    if k >= 2 {
      assert s[1] == whole[1] == whole[..2][1];
      if k >= 2 + |len.ext| {
        assert s[2..2 + |len.ext|] == whole[2..2 + |len.ext|];
      }
    }
  }

  // -------------------------------------------------------------------------
  // The examples of RFC 6455, section 5.7

  const HELLO: bytes := [0x48, 0x65, 0x6c, 0x6c, 0x6f]
  const EXAMPLE_KEY: bytes := [0x37, 0xfa, 0x21, 0x3d]

  lemma WrittenExamples(payload: bytes)
    ensures ServerFrame(true, TEXT, HELLO) == [0x81, 0x05, 0x48, 0x65, 0x6c, 0x6c, 0x6f]
    ensures ServerFrame(false, TEXT, [0x48, 0x65, 0x6c]) == [0x01, 0x03, 0x48, 0x65, 0x6c]
    ensures ServerFrame(true, CONTINUATION, [0x6c, 0x6f]) == [0x80, 0x02, 0x6c, 0x6f]
    ensures ServerFrame(true, PING, HELLO) == [0x89, 0x05, 0x48, 0x65, 0x6c, 0x6c, 0x6f]
    ensures ServerFrame(true, PONG, HELLO) == [0x8a, 0x05, 0x48, 0x65, 0x6c, 0x6c, 0x6f]
    ensures ServerFrame(true, CLOSE, []) == [0x88, 0x00]
    ensures |payload| == 256 ==> ServerFrame(true, BINARY, payload) == [0x82, 0x7e, 0x01, 0x00] + payload
    ensures |payload| == 65536 ==> ServerFrame(true, BINARY, payload)
                                   == [0x82, 0x7f, 0, 0, 0, 0, 0, 1, 0, 0] + payload
  {
    TwoBytes(256);
    FourBytes(65536);
  }

  lemma XorExamples(a: byte, b: byte)
    ensures a == 0x48 && b == 0x37 ==> Xor(a, b) == 0x7f
    ensures a == 0x65 && b == 0xfa ==> Xor(a, b) == 0x9f
    ensures a == 0x6c && b == 0x21 ==> Xor(a, b) == 0x4d
    ensures a == 0x6c && b == 0x3d ==> Xor(a, b) == 0x51
    ensures a == 0x6f && b == 0x37 ==> Xor(a, b) == 0x58
  {
    hide Xor, XorBits;
    XorSum(a, b);
  }

  lemma MaskedExamples()
    ensures ClientFrame(Frame(true, TEXT, HELLO), EXAMPLE_KEY)
            == [0x81, 0x85, 0x37, 0xfa, 0x21, 0x3d, 0x7f, 0x9f, 0x4d, 0x51, 0x58]
    ensures ClientFrame(Frame(true, PONG, HELLO), EXAMPLE_KEY)
            == [0x8a, 0x85, 0x37, 0xfa, 0x21, 0x3d, 0x7f, 0x9f, 0x4d, 0x51, 0x58]
  {
    hide Xor;
    var m := Masked(HELLO, EXAMPLE_KEY);
    forall i | 0 <= i < 5
      ensures m[i] == [0x7f, 0x9f, 0x4d, 0x51, 0x58][i]
    {
      XorExamples(HELLO[i], EXAMPLE_KEY[i % 4]);
    }
    assert m == [0x7f, 0x9f, 0x4d, 0x51, 0x58];
  }

  // -------------------------------------------------------------------------
  // A continuation frame with nothing to continue

  /** Whatever is returned, at least one frame has been read, unless reading itself failed. */
  lemma {:induction false} ReadFromShrinks(s: bytes, limit: int, op: nat, buf: bytes)
    ensures var r := ReadFrom(s, limit, op, buf); r.result.ReadFailed? || |r.rest| < |s|
    decreases |s|
  {
    hide ServerFrame;
    ParseFrameShrinks(s);
    match ParseFrame(s)
    case Got(f, rest) =>
      ReadFromShrinks(rest, limit, op, buf);
      ReadFromShrinks(rest, limit, if op == 0 then f.op else op, buf + f.payload);
    case _ =>
  }

  /** A continuation frame before any data frame should be refused. The code refuses it, before reading
      anything else, exactly when it is final or exceeds the limit; otherwise it is absorbed and its
      payload put in front of whatever is read next. */
  lemma LeadingContinuationRefusedIff(fin: bool, payload: bytes, key: bytes, s: bytes, limit: int, buf: bytes)
    requires |key| == 4 && |payload| <= MAX_INT
    ensures var r := ReadFrom(ClientFrame(Frame(fin, CONTINUATION, payload), key) + s, limit, 0, buf);
            && (r.result in {BadFirstOpcode, TooLarge} && r.rest == s <==> fin || !Within(limit, |buf + payload|))
            && (!fin && Within(limit, |buf + payload|) ==> r == ReadFrom(s, limit, 0, buf + payload))
  {
    hide ClientFrame, ParseFrame, ServerFrame;
    ParseClientFrame(Frame(fin, CONTINUATION, payload), key, s);
    ReadFromShrinks(s, limit, 0, buf + payload);
  }

  /** So a message that would have been delivered is still delivered as it was sent if and only if the
      stray frame in front of it is not final and carries no payload. */
  lemma MessageBehindContinuationIff(fin: bool, payload: bytes, key: bytes, items: seq<Sent>, tail: bytes, limit: int)
    requires |key| == 4 && |payload| <= MAX_INT
    requires WellFormed(items, false) && Within(limit, |PayloadOf(items)|)
    ensures ReadFrom(ClientFrame(Frame(fin, CONTINUATION, payload), key) + (Wire(items) + tail), limit, 0, []).result
            == Message(FirstOp(items), PayloadOf(items))
            <==> !fin && payload == []
  {
    hide ClientFrame, ReadFrom, FirstOp;
    LeadingContinuationRefusedIff(fin, payload, key, Wire(items) + tail, limit, []);
    assert [] + payload == payload;
    if !fin && Within(limit, |payload|) {
      if Within(limit, |payload + PayloadOf(items)|) {
        ReadRest(items, tail, limit, 0, payload);
        assert payload == [] ==> payload + PayloadOf(items) == PayloadOf(items);
      } else {
        OversizeRefused(items, tail, limit, 0, payload);
      }
    }
  }

  // -------------------------------------------------------------------------
  // The connection

  class Conn {
    /** Bytes still to be read, bytes written, payloads given to the pong handler. */
    var input: bytes
    var output: bytes
    var pongs: seq<bytes>
    var readLimit: int

    constructor (input: bytes, limit: int)
      ensures this.input == input && output == [] && pongs == [] && readLimit == limit
    {
      this.input, output, pongs, readLimit := input, [], [], limit;
    }

    /** `io.ReadFull`: `n` bytes, or nothing when the input ends first (which uses it up). */
    method ReadFull(n: nat) returns (r: Option<bytes>)
      modifies `input
      ensures |old(input)| < n ==> r == None && input == []
      ensures |old(input)| >= n ==> r == Some(old(input)[..n]) && input == old(input)[n..]
    {
      if |input| < n {
        input := [];
        return None;
      }
      r := Some(input[..n]);
      input := input[n..];
    }

    /** The length is accumulated byte by byte. */
    method Accumulate(ext: bytes) returns (n: nat)
      ensures n == BigEndian(ext)
    {
      n := 0;
      var i := 0;
      while i < |ext|
        invariant 0 <= i <= |ext| && n == BigEndian(ext[..i])
      {
        assert ext[..i + 1][..i] == ext[..i];
        n := n * 256 + ext[i];
        i := i + 1;
      }
      assert ext[..i] == ext;
    }

    /** The payload is unmasked in place. */
    method Unmask(payload: array<byte>, key: bytes)
      requires |key| == 4
      modifies payload
      ensures payload[..] == Masked(old(payload[..]), key)
    {
      var i := 0;
      while i < payload.Length
        invariant 0 <= i <= payload.Length
        invariant forall k :: 0 <= k < i ==> payload[k] == Xor(old(payload[k]), key[k % 4])
        invariant forall k :: i <= k < payload.Length ==> payload[k] == old(payload[k])
      {
        payload[i] := Xor(payload[i], key[i % 4]);
        i := i + 1;
      }
    }

    method ReadLength(len7: nat) returns (n: Option<nat>)
      requires len7 < 128
      modifies `input
      ensures var e := ExtSize(len7);
              if |old(input)| < e then n == None && input == []
              else n == Some(LengthValue(len7, old(input)[..e])) && input == old(input)[e..]
    {
      if ExtSize(len7) == 0 {
        return Some(len7);
      }
      var ext := ReadFull(ExtSize(len7));
      if ext == None {
        return None;
      }
      var value := Accumulate(ext.value);
      return Some(value);
    }

    method ReadPayload(fin: bool, op: nat, n: nat) returns (r: FrameResult)
      modifies `input
      ensures r == ParsePayload(old(input), fin, op, n) && input == r.rest
    {
      ghost var s := input;
      var key := ReadFull(4);
      if key == None {
        return Eof([]);
      }
      if n > MAX_INT {
        return BadLength(input);
      }
      var body := ReadFull(n);
      if body == None {
        return Eof([]);
      }
      assert body.value == s[4..4 + n] && input == s[4 + n..];
      var payload := new byte[|body.value|](i requires 0 <= i < |body.value| => body.value[i]);
      assert payload[..] == body.value;
      Unmask(payload, key.value);
      return Got(Frame(fin, op, payload[..]), input);
    }

    /** `readFrame`; on success exactly the frame's bytes have been consumed, otherwise as much as was read
        before the error. */
    method ReadFrame() returns (r: FrameResult)
      modifies `input
      ensures r == ParseFrame(old(input)) && input == r.rest
    {
      ghost var s := input;
      var head := ReadFull(2);
      if head == None {
        return Eof([]);
      }
      var b1, b2 := head.value[0], head.value[1];
      var length := ReadLength(b2 % 128);
      if length == None {
        return Eof([]);
      }
      if b2 < 128 {
        return NotMasked(input);
      }
      ghost var e := 2 + ExtSize(b2 % 128);
      assert s[2..][..e - 2] == s[2..e] && input == s[e..];
      r := ReadPayload(b1 >= 128, b1 % 16, length.value);
    }

    method WriteFrame(fin: bool, op: nat, payload: bytes)
      requires op < 16
      modifies `output
      ensures output == old(output) + ServerFrame(fin, op, payload)
    {
      var b0: byte := op;
      if fin {
        b0 := b0 + 128;
      }
      var header: bytes := [b0];
      var n := |payload|;
      if n <= 125 {
        header := header + [n];
      } else if n <= 65535 {
        header := header + [126, n / 256 % 256, n % 256];
        assert LowBytes(n, 2) == [n / 256 % 256, n % 256] by { TwoBytes(n); }
      } else {
        header := header + [127, 0, 0, 0, 0, n / 0x100_0000 % 256, n / 0x1_0000 % 256, n / 256 % 256, n % 256];
        FourBytes(n);
      }
      assert header == [b0, WrittenLength(n).len7] + WrittenLength(n).ext;
      output := output + header;
      if n > 0 {
        output := output + payload;
      }
      assert output == old(output) + (header + payload);
    }

    /** Reads one complete message, answering control frames on the way. */
    method ReadMessage() returns (r: MessageResult)
      modifies `input, `output, `pongs
      ensures var reading := ReadFrom(old(input), readLimit, 0, []);
              && r == reading.result
              && output == old(output) + reading.sent
              && pongs == old(pongs) + reading.pongs
              && input == reading.rest
    {
      hide ParseFrame, ServerFrame, ReadFrom;
      var op, buf := 0, [];
      ghost var whole := ReadFrom(input, readLimit, 0, []);
      ghost var sent, heard: seq<bytes> := [], [];
      PrefixedStep([], [], [], [], whole);
      while true
        invariant output == old(output) + sent && pongs == old(pongs) + heard
        invariant whole == Prefixed(sent, heard, ReadFrom(input, readLimit, op, buf))
        decreases |input|
      {
        ParseFrameShrinks(input);
        ReadRound(input, readLimit, op, buf);
        var got := ReadFrame();
        if !got.Got? {
          return ReadFailed(got);
        }
        var f := got.frame;
        if f.op == PING {
          WriteFrame(true, PONG, f.payload);
          PrefixedStep(sent, heard, ServerFrame(true, PONG, f.payload), [], ReadFrom(input, readLimit, op, buf));
          sent := sent + ServerFrame(true, PONG, f.payload);
          continue;
        }
        if f.op == PONG {
          pongs := pongs + [f.payload];
          PrefixedStep(sent, heard, [], f.payload, ReadFrom(input, readLimit, op, buf));
          heard := heard + [f.payload];
          continue;
        }
        if f.op == CLOSE {
          WriteFrame(true, CLOSE, []);
          return PeerClosed;
        }
        if op == 0 {
          op := f.op;
        } else if f.op != CONTINUATION {
          return UnexpectedOpcode(f.op);
        }
        buf := buf + f.payload;
        if readLimit > 0 && |buf| > readLimit {
          return TooLarge;
        }
        if f.fin {
          if op != TEXT && op != BINARY {
            return BadFirstOpcode;
          }
          return Message(op, buf);
        }
      }
    }
  }

  lemma TwoBytes(n: nat)
    ensures LowBytes(n, 2) == [n / 256 % 256, n % 256]
  {
    assert LowBytes(n / 256, 1) == [n / 256 % 256];
  }

  lemma FourBytes(n: nat)
    ensures LowBytes(n, 4) == [n / 0x100_0000 % 256, n / 0x1_0000 % 256, n / 256 % 256, n % 256]
  {
    TwoBytes(n / 0x1_0000);
    assert n / 0x1_0000 / 256 == n / 0x100_0000;
    assert n / 256 / 256 == n / 0x1_0000;
    assert LowBytes(n / 256, 3) == LowBytes(n / 256 / 256, 2) + [n / 256 % 256];
  }
}
