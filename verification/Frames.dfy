/** Outbound frames: the sequence number that the server splices into a JSON frame, and what a
    peer reads back from the bytes on the wire (internal/session.go, `stamp`). */
module Frames {
  import opened Commons
  import opened Bytes

  const OPEN_BRACE: byte := 123
  const CLOSE_BRACE: byte := 125
  const COMMA: byte := 44

  /** The bytes of `{"seq":` */
  const SEQ_HEADER: bytes := [123, 34, 115, 101, 113, 34, 58]
  const HEADER_LEN := 7

  /** A JSON object frame: what the server obtains by marshalling a message struct. */
  predicate IsObject(data: bytes) {
    |data| >= 2 && data[0] == OPEN_BRACE
  }

  /** `stamp`: anything that is not an object passes through unchanged. */
  function Stamp(data: bytes, n: nat): bytes {
    if !IsObject(data) then data
    else SEQ_HEADER + (Itoa(n) + (if data[1] != CLOSE_BRACE then [COMMA] + data[1..] else data[1..]))
  }

  /** Whether a frame starts with a sequence number. */
  predicate HasSeq(frame: bytes) {
    |frame| >= HEADER_LEN && frame[..HEADER_LEN] == SEQ_HEADER && DigitRun(frame[HEADER_LEN..]) > 0
  }

  /** The sequence number a peer reads from a frame, if any. */
  function SeqOf(frame: bytes): Option<nat> {
    if HasSeq(frame)
    then var rest := frame[HEADER_LEN..]; Some(DecimalValue(rest[..DigitRun(rest)]))
    else None
  }

  /** The frame without its sequence number: the event the application emitted. */
  function BodyOf(frame: bytes): bytes {
    if !HasSeq(frame) then frame
    else
      var rest := frame[HEADER_LEN..];
      var tail := rest[DigitRun(rest)..];
      [OPEN_BRACE] + (if tail != [] && tail[0] == COMMA then tail[1..] else tail)
  }

  /** An event as the application layer produces it: an object that does not itself begin with a
      `seq` field. */
  predicate IsEvent(data: bytes) {
    IsObject(data) && !HasSeq(data)
  }

  /** Reading a frame made of the header, a number and something that does not start with a digit. */
  lemma ReadHeader(frame: bytes, n: nat, tail: bytes)
    requires frame == SEQ_HEADER + (Itoa(n) + tail)
    requires tail != [] && !IsDigit(tail[0])
    ensures SeqOf(frame) == Some(n)
    ensures BodyOf(frame) == [OPEN_BRACE] + if tail[0] == COMMA then tail[1..] else tail
  {
    var digits := Itoa(n);
    assert frame[..HEADER_LEN] == SEQ_HEADER;
    var rest := frame[HEADER_LEN..];
    assert rest == digits + tail;
    assert rest[..|digits|] == digits && rest[|digits|..] == tail;
    DigitRunUnique(rest, |digits|);
    DecimalRoundTrip(n);
  }

  /** A stamped object carries exactly its number and its original bytes. */
  lemma StampRoundTrip(data: bytes, n: nat)
    requires IsObject(data)
    ensures SeqOf(Stamp(data, n)) == Some(n)
    ensures BodyOf(Stamp(data, n)) == data
  {
    var rest := data[1..];
    assert [OPEN_BRACE] + rest == data;
    if data[1] == CLOSE_BRACE {
      ReadHeader(Stamp(data, n), n, rest);
    } else {
      ReadHeader(Stamp(data, n), n, [COMMA] + rest);
      assert ([COMMA] + rest)[1..] == rest;
    }
  }

  /** `{}` becomes `{"seq":7}` and `{"a":1}` becomes `{"seq":12,"a":1}`. */
  lemma StampedExamples()
    ensures Stamp([123, 125], 7) == [123, 34, 115, 101, 113, 34, 58, 55, 125]
    ensures Stamp([123, 34, 97, 34, 58, 49, 125], 12)
            == [123, 34, 115, 101, 113, 34, 58, 49, 50, 44, 34, 97, 34, 58, 49, 125]
  {
    assert Itoa(12) == Itoa(1) + [50];
  }

  /** A reliable frame reaches the peer with its number exactly when it is a JSON object; any other
      frame that carries no number of its own goes out unnumbered. */
  lemma StampNumbersExactlyObjects(data: bytes, n: nat)
    requires !HasSeq(data)
    ensures SeqOf(Stamp(data, n)) == Some(n) <==> IsObject(data)
    ensures BodyOf(Stamp(data, n)) == data
  {
    if IsObject(data) {
      StampRoundTrip(data, n);
    }
  }
}
