/** The Socket.IO packet codec (internal/socketio/packet.go):
    `<type>[<attachments>-][<namespace>,][<ack id>]<payload>`. */
module SocketIO {
  import opened Commons
  import opened Bytes

  const SLASH: byte := 47
  const COMMA: byte := 44
  const DASH: byte := 45
  const DEFAULT_NS: bytes := [SLASH]

  /** Types: connect 0, disconnect 1, event 2, ack 3, connect error 4, binary event 5, binary ack 6. The
      numeric fields are 64-bit integers in the source. */
  datatype Packet = Packet(kind: int, ns: bytes, ack: Option<int>, data: bytes, attachments: int)

  predicate ValidKind(kind: int) {
    0 <= kind <= 6
  }

  predicate IsBinary(kind: int) {
    kind == 5 || kind == 6
  }

  /** Both numbers fit the source's `int`. */
  predicate InRange(p: Packet) {
    && -MAX_INT - 1 <= p.attachments <= MAX_INT
    && (p.ack.Some? ==> -MAX_INT - 1 <= p.ack.value <= MAX_INT)
  }

  // -------------------------------------------------------------------------
  // Encoding

  /** `strconv.Itoa` */
  function Numeral(n: int): (s: bytes)
    ensures s != []
    ensures n >= 0 ==> s == Itoa(n)
    ensures n < 0 ==> s[0] == DASH
  {
    if n >= 0 then Itoa(n) else [DASH] + Itoa(-n)
  }

  function Header(p: Packet): bytes {
    if IsBinary(p.kind) then Numeral(p.attachments) + [DASH] else []
  }

  function NsPart(p: Packet): bytes {
    if p.ns == [] || p.ns == DEFAULT_NS then [] else p.ns + [COMMA]
  }

  function AckPart(p: Packet): bytes {
    if p.ack == None then [] else Numeral(p.ack.value)
  }

  predicate Encodable(p: Packet) {
    && ValidKind(p.kind)
    && (if IsBinary(p.kind) then p.attachments >= 0 else p.attachments == 0)
    && (p.ns == [] || p.ns[0] == SLASH)
  }

  function Encoded(p: Packet): Option<bytes> {
    if Encodable(p) then Some([48 + p.kind] + Header(p) + NsPart(p) + AckPart(p) + p.data) else None
  }

  lemma AfterType(kind: byte, header: bytes, ns: bytes, ack: bytes, data: bytes)
    ensures ([kind] + header + ns + ack + data)[1..] == header + (ns + (ack + data))
  {
  }

  // -------------------------------------------------------------------------
  // Decoding, field by field

  /** Index of the first comma, or the length. */
  function CommaAt(s: bytes): (n: nat)
    ensures n <= |s| && COMMA !in s[..n]
    ensures n < |s| ==> s[n] == COMMA
  {
    if s == [] || s[0] == COMMA then 0 else 1 + CommaAt(s[1..])
  }

  /** What follows the attachment header, with the count. */
  function TakeHeader(kind: int, s: bytes): Option<(nat, bytes)> {
    if !IsBinary(kind) then Some((0, s))
    else
      var j := DigitRun(s);
      if j == 0 || j >= |s| || s[j] != DASH then None
      else match Atoi(s[..j])
           case None => None
           case Some(n) => Some((n, s[j + 1..]))
  }

  function TakeNs(s: bytes): (bytes, bytes) {
    if s == [] || s[0] != SLASH then (DEFAULT_NS, s)
    else
      var j := CommaAt(s);
      (s[..j], if j < |s| then s[j + 1..] else [])
  }

  function TakeAck(s: bytes): Option<(Option<int>, bytes)> {
    var j := DigitRun(s);
    if j == 0 then Some((None, s))
    else match Atoi(s[..j])
         case None => None
         case Some(n) => Some((Some(n), s[j..]))
  }

  function Decoded(raw: bytes): Option<Packet> {
    if raw == [] || raw[0] < 48 || raw[0] > 54 then None
    else
      var kind := raw[0] - 48;
      match TakeHeader(kind, raw[1..])
      case None => None
      case Some((attachments, s1)) =>
        var (ns, s2) := TakeNs(s1);
        match TakeAck(s2)
        case None => None
        case Some((ack, data)) => Some(Packet(kind, ns, ack, data, attachments))
  }

  // -------------------------------------------------------------------------
  // Each field reads back

  lemma HeaderReadsBack(kind: int, n: nat, rest: bytes)
    requires IsBinary(kind) && n <= MAX_INT
    ensures TakeHeader(kind, Itoa(n) + [DASH] + rest) == Some((n, rest))
  {
    var digits := Itoa(n);
    var s := digits + [DASH] + rest;
    assert s[..|digits|] == digits && s[|digits|] == DASH && s[|digits| + 1..] == rest;
    DigitRunUnique(s, |digits|);
    DecimalRoundTrip(n);
  }

  lemma {:induction false} CommaAtUnique(s: bytes, n: nat)
    requires n <= |s| && COMMA !in s[..n] && (n < |s| ==> s[n] == COMMA)
    ensures CommaAt(s) == n
  {
    if n > 0 {
      assert s[..n][0] == s[0] && s[1..][..n - 1] == s[..n][1..];
      CommaAtUnique(s[1..], n - 1);
    }
  }

  lemma NsReadsBack(ns: bytes, rest: bytes)
    requires ns != [] && ns[0] == SLASH && COMMA !in ns
    ensures TakeNs(ns + [COMMA] + rest) == (ns, rest)
  {
    var s := ns + [COMMA] + rest;
    assert s[..|ns|] == ns && s[|ns| + 1..] == rest;
    CommaAtUnique(s, |ns|);
  }

  lemma AckReadsBack(ack: Option<int>, data: bytes)
    requires ack.Some? ==> 0 <= ack.value <= MAX_INT
    requires data == [] || !IsDigit(data[0])
    ensures TakeAck((if ack == None then [] else Numeral(ack.value)) + data) == Some((ack, data))
  {
    if ack == None {
      assert [] + data == data;
    } else {
      var digits := Itoa(ack.value);
      var s := digits + data;
      assert s[..|digits|] == digits && s[|digits|..] == data;
      DigitRunUnique(s, |digits|);
      DecimalRoundTrip(ack.value);
    }
  }

  // -------------------------------------------------------------------------
  // Round trip

  /** A packet whose wire form is unambiguous: the namespace is explicit and comma-free, the ack id is
      not negative, and the payload cannot be mistaken for an ack id or, when both are absent, for a
      namespace. Payloads that are empty or start with `[` or `{` always qualify. */
  predicate Unambiguous(p: Packet) {
    && p.ns != [] && COMMA !in p.ns
    && (p.ack.Some? ==> p.ack.value >= 0)
    && (p.data != [] ==>
          && !IsDigit(p.data[0])
          && (p.ns == DEFAULT_NS && p.ack == None ==> p.data[0] != SLASH))
  }

  /** What every decoded packet looks like. */
  lemma DecodedShape(raw: bytes, p: Packet)
    requires Decoded(raw) == Some(p)
    ensures Encodable(p) && InRange(p)
    ensures p.ns != [] && p.ns[0] == SLASH && COMMA !in p.ns
    ensures p.ack.Some? ==> p.ack.value >= 0
    ensures p.data != [] ==> !IsDigit(p.data[0])
    ensures |p.data| < |raw|
  {
    var (attachments, s1) := TakeHeader(p.kind, raw[1..]).value;
    var (ns, s2) := TakeNs(s1);
    var j := DigitRun(s2);
    assert p.data == s2[j..];
  }

  lemma UnambiguousRoundTrips(p: Packet)
    requires Encodable(p) && InRange(p) && Unambiguous(p)
    ensures Decoded(Encoded(p).value) == Some(p)
  {
    hide TakeHeader, TakeNs, TakeAck, Header, NsPart, Itoa, Unambiguous, InRange;
    var s2 := AckPart(p) + p.data;
    var s1 := NsPart(p) + s2;
    AfterType(48 + p.kind, Header(p), NsPart(p), AckPart(p), p.data);
    HeaderPartReadsBack(p, s1);
    NsPartReadsBack(p, s2);
    AckPartReadsBack(p);
  }

  lemma HeaderPartReadsBack(p: Packet, s1: bytes)
    requires Encodable(p) && InRange(p)
    ensures TakeHeader(p.kind, Header(p) + s1) == Some((p.attachments, s1))
  {
    if IsBinary(p.kind) {
      HeaderReadsBack(p.kind, p.attachments, s1);
    } else {
      assert [] + s1 == s1;
    }
  }

  lemma AckPartReadsBack(p: Packet)
    requires InRange(p) && Unambiguous(p)
    ensures TakeAck(AckPart(p) + p.data) == Some((p.ack, p.data))
  {
    AckReadsBack(p.ack, p.data);
  }

  lemma NsPartReadsBack(p: Packet, s2: bytes)
    requires Encodable(p) && Unambiguous(p) && s2 == AckPart(p) + p.data
    ensures TakeNs(NsPart(p) + s2) == (p.ns, s2)
  {
    if p.ns == DEFAULT_NS {
      assert NsPart(p) + s2 == s2;
      assert s2 != [] ==> s2[0] == if p.ack == None then p.data[0] else Numeral(p.ack.value)[0];
    } else {
      NsReadsBack(p.ns, s2);
    }
  }

  /** Decode inverts Encode exactly on the unambiguous packets. */
  lemma RoundTripIff(p: Packet)
    requires Encodable(p) && InRange(p)
    ensures Decoded(Encoded(p).value) == Some(p) <==> Unambiguous(p)
  {
    if Unambiguous(p) {
      UnambiguousRoundTrips(p);
    } else if Decoded(Encoded(p).value) == Some(p) {
      DecodedShape(Encoded(p).value, p);
      SlashPayloadIsLost(p);
    }
  }

  /** A payload that starts with a slash, on the default namespace and without an ack id, is read as a
      namespace. */
  lemma SlashPayloadIsLost(p: Packet)
    requires Encodable(p) && p.ns == DEFAULT_NS && p.ack == None && p.data != [] && p.data[0] == SLASH
    requires InRange(p)
    ensures Decoded(Encoded(p).value) != Some(p)
  {
    hide TakeHeader, Header, Itoa;
    AfterType(48 + p.kind, Header(p), NsPart(p), AckPart(p), p.data);
    assert NsPart(p) + (AckPart(p) + p.data) == p.data;
    HeaderPartReadsBack(p, p.data);
    var (ns, s2) := TakeNs(p.data);
    assert |s2| < |p.data|;
  }

  /** What follows the type and, in a binary packet, the attachment header. */
  function AfterHeader(raw: bytes): bytes
    requires raw != []
  {
    var s := raw[1..];
    if (raw[0] == 53 || raw[0] == 54) && DigitRun(s) < |s| then s[DigitRun(s) + 1..] else s
  }

  /** The input spells out the default namespace in front of a payload that starts with a slash. */
  predicate SlashAfterDefault(s: bytes) {
    |s| > 2 && s[0] == SLASH && s[1] == COMMA && s[2] == SLASH
  }

  lemma {:induction false} SlashAfterDefaultMeans(s: bytes)
    requires TakeAck(TakeNs(s).1).Some?
    ensures var (ns, rest) := TakeNs(s); var (ack, data) := TakeAck(rest).value;
            ns == DEFAULT_NS && ack == None && data != [] && data[0] == SLASH <==> SlashAfterDefault(s)
  {
    var (ns, rest) := TakeNs(s);
    if s != [] && s[0] == SLASH {
      if |s| > 1 && s[1] == COMMA {
        assert s[..1] == DEFAULT_NS;
        CommaAtUnique(s, 1);
        assert rest == s[2..];
      } else {
        assert ns == DEFAULT_NS ==> rest == [];
      }
    }
  }

  lemma SlashOnTheWire(raw: bytes)
    requires Decoded(raw).Some?
    ensures var p := Decoded(raw).value;
            p.ns == DEFAULT_NS && p.ack == None && p.data != [] && p.data[0] == SLASH
            <==> SlashAfterDefault(AfterHeader(raw))
  {
    hide TakeNs, TakeAck, SlashAfterDefault;
    SlashAfterDefaultMeans(AfterHeader(raw));
  }

  /** Decode, encode and decode again: the first decoded packet comes back exactly unless the input
      spelled out the default namespace, had no ack id and carried a payload starting with a slash; on
      the bytes, unless `/,/` follows the type and the attachment header. */
  lemma CanonicalFormStableIff(raw: bytes)
    requires Decoded(raw).Some?
    ensures var p := Decoded(raw).value;
            && Encoded(p).Some?
            && (Decoded(Encoded(p).value) == Some(p)
                <==> !(p.ns == DEFAULT_NS && p.ack == None && p.data != [] && p.data[0] == SLASH))
            && (Decoded(Encoded(p).value) == Some(p) <==> !SlashAfterDefault(AfterHeader(raw)))
  {
    hide Decoded, SlashAfterDefault, AfterHeader;
    var p := Decoded(raw).value;
    DecodedShape(raw, p);
    RoundTripIff(p);
    SlashOnTheWire(raw);
  }

  /** What can be encoded: a valid type, attachments only and not negative on binary packets, and a namespace
      that is absent or starts with a slash. An absent namespace is written like the default one. */
  lemma EncodeMeans(p: Packet)
    ensures Encoded(p) == None
            <==> || p.kind < 0 || p.kind > 6
                 || (p.kind < 5 && p.attachments != 0) || (p.kind >= 5 && p.attachments < 0)
                 || (p.ns != [] && p.ns[0] != 47)
    ensures Encoded(p.(ns := [])) == Encoded(p.(ns := [47]))
  {
    assert NsPart(p.(ns := [])) == NsPart(p.(ns := [47])) == [];
  }

  /** What can be decoded: a type digit from 0 to 6; on binary packets a number that fits an `int` and a dash;
      and after the namespace, a run of digits only if it fits an `int`. */
  lemma DecodeMeans(raw: bytes)
    ensures Decoded(raw).Some?
            <==> && raw != [] && 48 <= raw[0] <= 54
                 && (raw[0] >= 53 ==>
                       && var n := DigitRun(raw[1..]);
                          && 0 < n < |raw| - 1 && raw[n + 1] == 45
                          && DecimalValue(raw[1..][..n]) <= MAX_INT)
                 && var rest := TakeNs(AfterHeader(raw)).1;
                    DecimalValue(rest[..DigitRun(rest)]) <= MAX_INT
  {
    if raw != [] {
      var s := raw[1..];
      var n := DigitRun(s);
      assert n < |s| ==> s[n] == raw[n + 1];
      var rest := TakeNs(AfterHeader(raw)).1;
      assert DigitRun(rest) == 0 ==> rest[..DigitRun(rest)] == [];
    }
  }

  /** The binary event `51-/a,9[]`: one attachment, namespace `/a`, ack id 9, payload `[]`. */
  lemma WireExample()
    ensures var p := Packet(5, [47, 97], Some(9), [91, 93], 1); var wire: bytes := [53, 49, 45, 47, 97, 44, 57, 91, 93];
            Encoded(p) == Some(wire) && Decoded(wire) == Some(p)
  {
    var p := Packet(5, [47, 97], Some(9), [91, 93], 1);
    assert Itoa(1) == [49] && Itoa(9) == [57];
    assert Header(p) == [49, 45] && NsPart(p) == [47, 97, 44] && AckPart(p) == [57];
    assert [53] + [49, 45] + [47, 97, 44] + [57] + [91, 93] == [53, 49, 45, 47, 97, 44, 57, 91, 93];
    assert Encoded(p) == Some([53, 49, 45, 47, 97, 44, 57, 91, 93]);
    RoundTripIff(p);
  }

  /** `2/,/x` decodes to a packet that does not survive re-encoding. */
  lemma UnstableInputExists()
    ensures var raw: bytes := [50, 47, 44, 47, 120];
            && Decoded(raw) == Some(Packet(2, DEFAULT_NS, None, [47, 120], 0))
            && Decoded(Encoded(Decoded(raw).value).value) != Decoded(raw)
  {
    var raw: bytes := [50, 47, 44, 47, 120];
    assert raw[1..] == [47, 44, 47, 120];
    var s1: bytes := [47, 44, 47, 120];
    assert s1[..1] == [47] && s1[2..] == [47, 120];
    CommaAtUnique(s1, 1);
    DigitRunUnique([47, 120], 0);
    var p := Packet(2, DEFAULT_NS, None, [47, 120], 0);
    SlashPayloadIsLost(p);
  }

  // -------------------------------------------------------------------------
  // The scanning loops

  method Encode(p: Packet) returns (wire: Option<bytes>)
    ensures wire == Encoded(p)
  {
    if !ValidKind(p.kind) {
      return None;
    }
    if !IsBinary(p.kind) && p.attachments != 0 {
      return None;
    }
    if IsBinary(p.kind) && p.attachments < 0 {
      return None;
    }
    var b: bytes := [48 + p.kind];
    if IsBinary(p.kind) {
      b := b + Numeral(p.attachments);
      b := b + [DASH];
    }
    assert b == [48 + p.kind] + Header(p);
    ghost var b1 := b;
    if p.ns != [] && p.ns != DEFAULT_NS {
      if p.ns[0] != SLASH {
        return None;
      }
      b := b + p.ns;
      b := b + [COMMA];
    }
    assert b == b1 + NsPart(p);
    ghost var b2 := b;
    if p.ack.Some? {
      b := b + Numeral(p.ack.value);
    }
    assert b == b2 + AckPart(p);
    ghost var b3 := b;
    if |p.data| > 0 {
      b := b + p.data;
    }
    assert b == b3 + p.data;
    return Some(b);
  }

  /** Advances over digits from `i`. */
  method ScanDigits(raw: bytes, i: nat) returns (j: nat)
    requires i <= |raw|
    ensures i <= j <= |raw| && j - i == DigitRun(raw[i..])
  {
    j := i;
    while j < |raw| && IsDigit(raw[j])
      invariant i <= j <= |raw| && forall k :: i <= k < j ==> IsDigit(raw[k])
    {
      j := j + 1;
    }
    assert raw[i..][..j - i] == raw[i..j];
    DigitRunUnique(raw[i..], j - i);
  }

  method ScanToComma(raw: bytes, i: nat) returns (j: nat)
    requires i <= |raw|
    ensures i <= j <= |raw| && j - i == CommaAt(raw[i..])
  {
    j := i;
    while j < |raw| && raw[j] != COMMA
      invariant i <= j <= |raw| && COMMA !in raw[i..j]
    {
      j := j + 1;
    }
    assert raw[i..][..j - i] == raw[i..j];
    CommaAtUnique(raw[i..], j - i);
  }

  /** The attachment header of a binary packet, if there has to be one; `i` moves past it. */
  method DecodeHeader(raw: bytes, kind: int, i: nat) returns (r: Option<(nat, nat)>)
    requires i <= |raw|
    ensures r.Some? ==> r.value.1 <= |raw| && TakeHeader(kind, raw[i..]) == Some((r.value.0, raw[r.value.1..]))
    ensures r == None ==> TakeHeader(kind, raw[i..]) == None
  {
    if !IsBinary(kind) {
      return Some((0, i));
    }
    var j := ScanDigits(raw, i);
    if j == i || j >= |raw| || raw[j] != DASH {
      return None;
    }
    assert raw[i..][..j - i] == raw[i..j] && raw[i..][j - i + 1..] == raw[j + 1..];
    var n := Atoi(raw[i..j]);
    if n == None {
      return None;
    }
    return Some((n.value, j + 1));
  }

  /** A leading slash marks a namespace, which runs to the next comma or to the end. */
  method DecodeNs(raw: bytes, i: nat) returns (ns: bytes, next: nat)
    requires i <= |raw|
    ensures next <= |raw| && TakeNs(raw[i..]) == (ns, raw[next..])
  {
    if i < |raw| && raw[i] == SLASH {
      var j := ScanToComma(raw, i);
      assert raw[i..][..j - i] == raw[i..j];
      if j < |raw| {
        assert raw[i..][j - i + 1..] == raw[j + 1..];
        return raw[i..j], j + 1;
      }
      assert raw[i..j] == raw[i..] && raw[|raw|..] == [];
      return raw[i..], |raw|;
    }
    return DEFAULT_NS, i;
  }

  /** A run of digits is the ack id. */
  method DecodeAck(raw: bytes, i: nat) returns (r: Option<(Option<int>, nat)>)
    requires i <= |raw|
    ensures r.Some? ==> r.value.1 <= |raw| && TakeAck(raw[i..]) == Some((r.value.0, raw[r.value.1..]))
    ensures r == None ==> TakeAck(raw[i..]) == None
  {
    var j := ScanDigits(raw, i);
    if j == i {
      return Some((None, i));
    }
    assert raw[i..][..j - i] == raw[i..j] && raw[i..][j - i..] == raw[j..];
    var n := Atoi(raw[i..j]);
    if n == None {
      return None;
    }
    return Some((Some(n.value), j));
  }

  method Decode(raw: bytes) returns (r: Option<Packet>)
    ensures r == Decoded(raw)
  {
    if |raw| == 0 {
      return None;
    }
    var digit := raw[0];
    if digit < 48 || digit > 54 {
      return None;
    }
    var header := DecodeHeader(raw, digit - 48, 1);
    if header == None {
      return None;
    }
    var (attachments, i) := header.value;
    var ns, j := DecodeNs(raw, i);
    var ack := DecodeAck(raw, j);
    if ack == None {
      return None;
    }
    return Some(Packet(digit - 48, ns, ack.value.0, raw[ack.value.1..], attachments));
  }
}
