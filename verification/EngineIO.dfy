/** The Engine.IO packet codec and the batching of packets into one HTTP body
    (internal/engineio/packet.go, internal/engineio/batch.go). */
module EngineIO {
  import opened Commons
  import opened Bytes

  /** Packet types are written as one digit: open 0, close 1, ping 2, pong 3, message 4, upgrade 5, noop 6. */
  datatype Packet = Packet(kind: int, data: bytes)

  const CLOSE := 1
  const PING := 2
  const MESSAGE := 4

  /** The record separator between packets of one body. */
  const SEP: byte := 0x1e

  predicate ValidKind(kind: int) {
    0 <= kind <= 6
  }

  // -------------------------------------------------------------------------
  // One packet

  function Encode(p: Packet): Option<bytes> {
    if ValidKind(p.kind) then Some([48 + p.kind] + p.data) else None
  }

  function Decode(raw: bytes): Option<Packet> {
    if raw == [] || raw[0] < 48 || raw[0] > 54 then None else Some(Packet(raw[0] - 48, raw[1..]))
  }

  /** Encode and Decode are inverse to each other, each on exactly the inputs the other produces. */
  lemma PacketRoundTrip(p: Packet, raw: bytes)
    ensures Encode(p).Some? <==> ValidKind(p.kind)
    ensures Encode(p) == Some(raw) <==> Decode(raw) == Some(p)
  {
    if Decode(raw) == Some(p) {
      assert raw == [raw[0]] + raw[1..];
    }
  }

  // -------------------------------------------------------------------------
  // Splitting and joining

  ghost predicate Clean(s: bytes) {
    SEP !in s
  }

  ghost predicate AllClean(ws: seq<bytes>) {
    forall i :: 0 <= i < |ws| ==> Clean(ws[i])
  }

  function Joined(ws: seq<bytes>): bytes {
    if ws == [] then []
    else if |ws| == 1 then ws[0]
    else Joined(ws[..|ws| - 1]) + [SEP] + ws[|ws| - 1]
  }

  /** `bytes.Split` at the record separator. */
  function Split(s: bytes): (parts: seq<bytes>)
    ensures parts != []
  {
    if s == [] then [[]]
    else
      var parts, last := Split(s[..|s| - 1]), s[|s| - 1];
      if last == SEP then parts + [[]]
      else parts[..|parts| - 1] + [parts[|parts| - 1] + [last]]
  }

  lemma {:induction false} SplitIsClean(s: bytes)
    ensures AllClean(Split(s))
  {
    if s != [] {
      SplitIsClean(s[..|s| - 1]);
    }
  }

  lemma JoinedSnoc(ws: seq<bytes>, w: bytes)
    requires ws != []
    ensures Joined(ws + [w]) == Joined(ws) + [SEP] + w
  {
    assert (ws + [w])[..|ws|] == ws;
  }

  /** Joining the parts gives the input back: with `SplitIsClean` and `SplitJoined` this determines
      `Split`. */
  lemma {:induction false} JoinedSplit(s: bytes)
    ensures Joined(Split(s)) == s
  {
    if s != [] {
      var init, last := s[..|s| - 1], s[|s| - 1];
      var parts := Split(init);
      JoinedSplit(init);
      assert s == init + [last];
      if last == SEP {
        JoinedSnoc(parts, []);
      } else if |parts| > 1 {
        var front, w := parts[..|parts| - 1], parts[|parts| - 1];
        JoinedSnoc(front, w);
        JoinedSnoc(front, w + [last]);
        assert front + [w] == parts;
      }
    }
  }

  lemma SplitSnoc(s: bytes, b: byte)
    ensures var parts := Split(s);
            Split(s + [b])
            == if b == SEP then parts + [[]] else parts[..|parts| - 1] + [parts[|parts| - 1] + [b]]
  {
    assert (s + [b])[..|s + [b]| - 1] == s;
  }

  lemma {:induction false} SplitAfterSep(a: bytes, w: bytes)
    requires Clean(w)
    ensures Split(a + [SEP] + w) == Split(a) + [w]
  {
    hide Split;
    if w == [] {
      SplitSnoc(a, SEP);
      assert a + [SEP] + [] == a + [SEP];
    } else {
      var init, last := w[..|w| - 1], w[|w| - 1];
      assert Clean(init) && init + [last] == w;
      SplitAfterSep(a, init);
      SplitSnoc(a + [SEP] + init, last);
      assert a + [SEP] + init + [last] == a + [SEP] + w;
    }
  }

  lemma {:induction false} SplitClean(w: bytes)
    requires Clean(w)
    ensures Split(w) == [w]
  {
    if w != [] {
      assert Clean(w[..|w| - 1]);
      SplitClean(w[..|w| - 1]);
      assert w[..|w| - 1] + [w[|w| - 1]] == w;
    }
  }

  lemma {:induction false} SplitJoined(ws: seq<bytes>)
    requires ws != [] && AllClean(ws)
    ensures Split(Joined(ws)) == ws
  {
    if |ws| == 1 {
      SplitClean(ws[0]);
    } else {
      var init, last := ws[..|ws| - 1], ws[|ws| - 1];
      SplitJoined(init);
      SplitAfterSep(Joined(init), last);
      assert init + [last] == ws;
    }
  }

  // -------------------------------------------------------------------------
  // Batches

  /** The wire form of each packet, or nothing if some packet has an invalid type. */
  function Wires(ps: seq<Packet>): Option<seq<bytes>> {
    if ps == [] then Some([])
    else
      match (Wires(ps[..|ps| - 1]), Encode(ps[|ps| - 1]))
      case (Some(ws), Some(w)) => Some(ws + [w])
      case _ => None
  }

  /** Decoded segments in order; empty segments are skipped, a bad one fails the whole body. */
  function Packets(parts: seq<bytes>): Option<seq<Packet>> {
    if parts == [] then Some([])
    else
      match Packets(parts[..|parts| - 1])
      case None => None
      case Some(ps) =>
        var part := parts[|parts| - 1];
        if part == [] then Some(ps)
        else match Decode(part)
             case None => None
             case Some(p) => Some(ps + [p])
  }

  function BatchOf(ps: seq<Packet>): Option<bytes> {
    match Wires(ps)
    case None => None
    case Some(ws) => Some(Joined(ws))
  }

  function Unbatch(body: bytes): Option<seq<Packet>> {
    if body == [] then Some([]) else Packets(Split(body))
  }

  ghost predicate CleanPackets(ps: seq<Packet>) {
    forall i :: 0 <= i < |ps| ==> Clean(ps[i].data)
  }

  lemma {:induction false} WiresOfValid(ps: seq<Packet>)
    ensures Wires(ps).Some? <==> forall i :: 0 <= i < |ps| ==> ValidKind(ps[i].kind)
    ensures Wires(ps).Some? ==>
              && |Wires(ps).value| == |ps|
              && forall i :: 0 <= i < |ps| ==> Encode(ps[i]) == Some(Wires(ps).value[i])
  {
    if ps != [] {
      WiresOfValid(ps[..|ps| - 1]);
    }
  }

  lemma {:induction false} PacketsOfWires(ps: seq<Packet>)
    requires Wires(ps).Some?
    ensures Packets(Wires(ps).value) == Some(ps)
  {
    if ps != [] {
      var init, last, ws := ps[..|ps| - 1], ps[|ps| - 1], Wires(ps).value;
      PacketsOfWires(init);
      PacketRoundTrip(last, ws[|ws| - 1]);
      assert ws[..|ws| - 1] == Wires(init).value;
      assert init + [last] == ps;
    }
  }

  lemma {:induction false} PacketsAreClean(parts: seq<bytes>)
    requires AllClean(parts) && Packets(parts).Some?
    ensures CleanPackets(Packets(parts).value)
  {
    if parts != [] {
      PacketsAreClean(parts[..|parts| - 1]);
    }
  }

  /** The segments that are not empty, in order. */
  function NonEmpty(parts: seq<bytes>): seq<bytes> {
    if parts == [] then []
    else NonEmpty(parts[..|parts| - 1]) + (if parts[|parts| - 1] == [] then [] else [parts[|parts| - 1]])
  }

  /** Every segment that is not empty starts with a type digit. */
  ghost predicate Typed(parts: seq<bytes>) {
    forall i :: 0 <= i < |parts| && parts[i] != [] ==> 48 <= parts[i][0] <= 54
  }

  lemma {:induction false} PacketsMeans(parts: seq<bytes>)
    ensures Packets(parts).Some? <==> Typed(parts)
    ensures Packets(parts).Some? ==> Wires(Packets(parts).value) == Some(NonEmpty(parts))
  {
    if parts != [] {
      var init, part := parts[..|parts| - 1], parts[|parts| - 1];
      PacketsMeans(init);
      assert forall i :: 0 <= i < |init| ==> init[i] == parts[i];
      if Packets(parts).Some? {
        if part == [] {
          assert NonEmpty(init) + [] == NonEmpty(init);
        } else {
          PacketRoundTrip(Decode(part).value, part);
          WiresSnoc(Packets(init).value, Decode(part).value);
        }
      }
    }
  }

  lemma WiresSnoc(ps: seq<Packet>, p: Packet)
    requires Wires(ps).Some? && Encode(p).Some?
    ensures Wires(ps + [p]) == Some(Wires(ps).value + [Encode(p).value])
  {
    assert (ps + [p])[..|ps + [p]| - 1] == ps;
  }

  /** Every body: decoding succeeds exactly when each segment that is not empty starts with a type digit, and
      then the packets are those segments, in order; empty segments are skipped. */
  lemma UnbatchMeans(body: bytes)
    ensures Unbatch(body).Some? <==> Typed(Split(body))
    ensures Unbatch(body).Some? ==> Wires(Unbatch(body).value) == Some(NonEmpty(Split(body)))
  {
    if body == [] {
      var parts: seq<bytes> := [[]];
      assert Split(body) == parts && parts[..0] == [];
      assert NonEmpty(parts) == NonEmpty([]) + [];
    } else {
      hide Packets, Wires, NonEmpty, Split, Typed;
      PacketsMeans(Split(body));
    }
  }

  /** A message `hello` is `4hello`; followed by a ping in one body it is `4hello`, byte 30, `2`. */
  lemma WireExamples()
    ensures Encode(Packet(MESSAGE, [104, 101, 108, 108, 111])) == Some([52, 104, 101, 108, 108, 111])
    ensures Encode(Packet(CLOSE, [])) == Some([49])
    ensures BatchOf([Packet(MESSAGE, [104, 105]), Packet(PING, [])]) == Some([52, 104, 105, 30, 50])
  {
    assert [52] + [104, 101, 108, 108, 111] == [52, 104, 101, 108, 108, 111] && [49] + [] == [49];
    var a, b := Packet(MESSAGE, [104, 105]), Packet(PING, []);
    var u, v: bytes := [52, 104, 105], [50];
    assert [52] + [104, 105] == u && [50] + [] == v;
    assert [a, b][..1] == [a] && [a][..0] == [];
    assert Wires([a]) == Some([] + [u]) && [] + [u] == [u];
    assert Wires([a, b]) == Some([u] + [v]) && [u] + [v] == [u, v];
    assert [u, v][..1] == [u] && Joined([u, v]) == Joined([u]) + [SEP] + v;
    assert u + [30] + v == [52, 104, 105, 30, 50];
  }

  lemma WiresAreClean(ps: seq<Packet>)
    requires Wires(ps).Some? && CleanPackets(ps)
    ensures AllClean(Wires(ps).value)
  {
    WiresOfValid(ps);
    forall i | 0 <= i < |ps|
      ensures Clean(Wires(ps).value[i])
    {
      assert Encode(ps[i]) == Some(Wires(ps).value[i]);
    }
  }

  lemma {:induction false} JoinedNonEmpty(ws: seq<bytes>)
    requires ws != [] && forall i :: 0 <= i < |ws| ==> ws[i] != []
    ensures Joined(ws) != []
  {
  }

  /** Decoding inverts encoding for a batch of packets with valid types exactly when no payload contains
      the record separator. */
  lemma BatchRoundTripIff(ps: seq<Packet>)
    requires BatchOf(ps).Some?
    ensures Unbatch(BatchOf(ps).value) == Some(ps) <==> CleanPackets(ps)
  {
    var ws := Wires(ps).value;
    var body := Joined(ws);
    WiresOfValid(ps);
    if ps != [] {
      forall i | 0 <= i < |ws|
        ensures ws[i] != []
      {
        assert Encode(ps[i]) == Some(ws[i]);
      }
      JoinedNonEmpty(ws);
      SplitIsClean(body);
      if Unbatch(body) == Some(ps) {
        PacketsAreClean(Split(body));
      }
      if CleanPackets(ps) {
        WiresAreClean(ps);
        SplitJoined(ws);
        PacketsOfWires(ps);
      }
    }
  }

  method EncodeBatch(packets: seq<Packet>) returns (body: Option<bytes>)
    ensures body == BatchOf(packets)
  {
    if |packets| == 0 {
      return Some([]);
    }
    var buf: bytes := [];
    var i := 0;
    while i < |packets|
      invariant 0 <= i <= |packets|
      invariant Wires(packets[..i]).Some? && |Wires(packets[..i]).value| == i
      invariant buf == Joined(Wires(packets[..i]).value)
    {
      WiresOneMore(packets, i);
      var wire := Encode(packets[i]);
      if wire == None {
        InvalidStaysInvalid(packets, i + 1);
        return None;
      }
      if i > 0 {
        buf := buf + [SEP];
      }
      buf := buf + wire.value;
      i := i + 1;
    }
    assert packets[..i] == packets;
    return Some(buf);
  }

  lemma WiresOneMore(ps: seq<Packet>, i: nat)
    requires i < |ps| && Wires(ps[..i]).Some? && |Wires(ps[..i]).value| == i
    ensures Encode(ps[i]) == None ==> Wires(ps[..i + 1]) == None
    ensures Encode(ps[i]).Some? ==>
              var ws, w := Wires(ps[..i]).value, Encode(ps[i]).value;
              && Wires(ps[..i + 1]) == Some(ws + [w])
              && Joined(ws + [w]) == if i == 0 then w else Joined(ws) + [SEP] + w
  {
    assert ps[..i + 1][..i] == ps[..i];
    if Encode(ps[i]).Some? && i > 0 {
      JoinedSnoc(Wires(ps[..i]).value, Encode(ps[i]).value);
    }
  }

  lemma InvalidStaysInvalid(ps: seq<Packet>, k: nat)
    requires k <= |ps| && Wires(ps[..k]) == None
    ensures Wires(ps) == None
  {
    WiresOfValid(ps[..k]);
    WiresOfValid(ps);
  }

  method DecodeBatch(body: bytes) returns (packets: Option<seq<Packet>>)
    ensures packets == Unbatch(body)
  {
    if |body| == 0 {
      return Some([]);
    }
    var parts := Split(body);
    var out: seq<Packet> := [];
    var i := 0;
    while i < |parts|
      invariant 0 <= i <= |parts|
      invariant Packets(parts[..i]) == Some(out)
    {
      assert parts[..i + 1][..i] == parts[..i];
      if |parts[i]| > 0 {
        var p := Decode(parts[i]);
        if p == None {
          BadStaysBad(parts, i + 1);
          return None;
        }
        out := out + [p.value];
      }
      i := i + 1;
    }
    assert parts[..i] == parts;
    return Some(out);
  }

  lemma {:induction false} BadStaysBad(parts: seq<bytes>, k: nat)
    requires k <= |parts| && Packets(parts[..k]) == None
    ensures Packets(parts) == None
  {
    if k < |parts| {
      assert parts[..|parts| - 1][..k] == parts[..k];
      BadStaysBad(parts[..|parts| - 1], k);
    } else {
      assert parts[..k] == parts;
    }
  }
}
