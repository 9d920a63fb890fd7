/** The outbound side of the Engine.IO long-polling transport: a bounded queue of packets that each poll
    drains into one body (internal/polling_transport.go). */
module Polling {
  import opened Commons
  import opened Bytes
  import opened EngineIO

  const CAPACITY := 64

  datatype SendResult = Sent | Eof | OutboxFull

  /** Which ready branch the `select` of a poll takes. */
  datatype Branch = OutboxReady | TimerFired | Woken

  /** A poll's answer. `Idle` is the heartbeat ping sent when nothing arrives in time. */
  datatype Answer = Closed | Idle(ping: bytes) | Nothing | Batch(body: bytes)

  // -------------------------------------------------------------------------
  // The transport

  class PollingTransport {
    var outbox: seq<bytes>
    var wake: bool
    var closed: bool

    constructor ()
      ensures outbox == [] && !wake && !closed
    {
      outbox, wake, closed := [], false, false;
    }

    method EnqueueOutbound(wire: bytes) returns (r: SendResult)
      modifies `outbox, `wake
      ensures r == Accepts(old(Queue(outbox, wake, closed)))
      ensures Queue(outbox, wake, closed) == Put(old(Queue(outbox, wake, closed)), wire)
    {
      if closed {
        return Eof;
      }
      if |outbox| < CAPACITY {
        outbox := outbox + [wire];
        wake := true;
        return Sent;
      }
      return OutboxFull;
    }

    /** The payload is wrapped in a message packet and queued. */
    method Write(data: bytes) returns (r: SendResult)
      modifies `outbox, `wake
      ensures r == Accepts(old(Queue(outbox, wake, closed)))
      ensures Queue(outbox, wake, closed) == Put(old(Queue(outbox, wake, closed)), Encode(Packet(MESSAGE, data)).value)
    {
      if closed {
        return Eof;
      }
      r := EnqueueOutbound(Encode(Packet(MESSAGE, data)).value);
    }

    method Ping() returns (r: SendResult)
      modifies `outbox, `wake
      ensures r == Accepts(old(Queue(outbox, wake, closed)))
      ensures Queue(outbox, wake, closed) == Put(old(Queue(outbox, wake, closed)), Encode(Packet(PING, [])).value)
    {
      if closed {
        return Eof;
      }
      r := EnqueueOutbound(Encode(Packet(PING, [])).value);
    }

    /** A close packet; on a transport that is already closed there is nothing to do. */
    method SendClose() returns (r: SendResult)
      modifies `outbox, `wake
      ensures r == if old(closed) then Sent else Accepts(old(Queue(outbox, wake, closed)))
      ensures Queue(outbox, wake, closed) == Put(old(Queue(outbox, wake, closed)), Encode(Packet(CLOSE, [])).value)
    {
      if closed {
        return Sent;
      }
      r := EnqueueOutbound(Encode(Packet(CLOSE, [])).value);
    }

    method CollectBatch(first: bytes) returns (body: bytes)
      modifies `outbox
      ensures body == Joined([first] + old(outbox)) && outbox == []
    {
      body := first;
      ghost var taken := [first];
      while |outbox| > 0
        invariant taken + outbox == [first] + old(outbox) && taken != []
        invariant body == Joined(taken)
        decreases |outbox|
      {
        var wire := outbox[0];
        outbox := outbox[1..];
        JoinedSnoc(taken, wire);
        body := body + [SEP] + wire;
        taken := taken + [wire];
      }
      assert taken == [first] + old(outbox);
    }

    /** One poll; the branch taken has to be ready. */
    method Poll(branch: Branch) returns (a: Answer)
      requires !closed ==> Ready(Queue(outbox, wake, closed), branch)
      modifies `outbox, `wake
      ensures (Queue(outbox, wake, closed), a) == Polled(old(Queue(outbox, wake, closed)), branch)
    {
      if closed {
        return Closed;
      }
      match branch
      case OutboxReady =>
        var first := outbox[0];
        outbox := outbox[1..];
        var body := CollectBatch(first);
        assert [old(outbox)[0]] + old(outbox)[1..] == old(outbox);
        return Batch(body);
      case TimerFired => return Idle(Encode(Packet(PING, [])).value);
      case Woken =>
        wake := false;
        if |outbox| == 0 {
          return Nothing;
        }
        var first := outbox[0];
        outbox := outbox[1..];
        var body := CollectBatch(first);
        assert [old(outbox)[0]] + old(outbox)[1..] == old(outbox);
        return Batch(body);
    }
  }

  // -------------------------------------------------------------------------
  // Meaning

  datatype Queue = Queue(outbox: seq<bytes>, wake: bool, closed: bool)

  function Accepts(q: Queue): SendResult {
    if q.closed then Eof else if |q.outbox| < CAPACITY then Sent else OutboxFull
  }

  function Put(q: Queue, wire: bytes): Queue {
    if Accepts(q).Sent? then q.(outbox := q.outbox + [wire], wake := true) else q
  }

  predicate Ready(q: Queue, branch: Branch) {
    match branch
    case OutboxReady => q.outbox != []
    case TimerFired => true
    case Woken => q.wake
  }

  function Polled(q: Queue, branch: Branch): (Queue, Answer) {
    if q.closed then (q, Closed)
    else
      match branch
      case OutboxReady => (q.(outbox := []), Batch(Joined(q.outbox)))
      case TimerFired => (q, Idle(Encode(Packet(PING, [])).value))
      case Woken => (q.(outbox := [], wake := false), if q.outbox == [] then Nothing else Batch(Joined(q.outbox)))
  }

  // -------------------------------------------------------------------------
  // Runs

  datatype Op = Push(p: Packet) | Take(branch: Branch)

  /** `accepted` is what the transport agreed to send; `received` what the client decodes from the
      successive batch bodies. */
  datatype Session = Session(q: Queue, accepted: seq<Packet>, received: seq<Packet>, garbled: bool)

  const FRESH := Session(Queue([], false, false), [], [], false)

  ghost predicate Legal(s: Session, op: Op) {
    match op
    case Push(p) => ValidKind(p.kind) && Clean(p.data)
    case Take(branch) => Ready(s.q, branch)
  }

  function Step(s: Session, op: Op): Session {
    match op
    case Push(p) =>
      var wire := Encode(p);
      if wire == None then s
      else s.(q := Put(s.q, wire.value), accepted := if Accepts(s.q).Sent? then s.accepted + [p] else s.accepted)
    case Take(branch) =>
      var (q, a) := Polled(s.q, branch);
      if !a.Batch? then s.(q := q)
      else match Unbatch(a.body)
           case None => s.(q := q, garbled := true)
           case Some(ps) => s.(q := q, received := s.received + ps)
  }

  ghost predicate LegalRun(s: Session, ops: seq<Op>)
    decreases |ops|
  {
    ops != [] ==> Legal(s, ops[0]) && LegalRun(Step(s, ops[0]), ops[1..])
  }

  function Run(s: Session, ops: seq<Op>): Session
    decreases |ops|
  {
    if ops == [] then s else Run(Step(s, ops[0]), ops[1..])
  }

  /** What the client has decoded, followed by what is still queued, is what was accepted. */
  ghost predicate Lossless(s: Session) {
    && !s.garbled && !s.q.closed
    && |s.received| <= |s.accepted| && s.received == s.accepted[..|s.received|]
    && CleanPackets(s.accepted)
    && Wires(s.accepted[|s.received|..]) == Some(s.q.outbox)
  }

  lemma PushKeepsLossless(s: Session, p: Packet)
    requires Lossless(s) && ValidKind(p.kind) && Clean(p.data)
    ensures Lossless(Step(s, Push(p)))
  {
    var s' := Step(s, Push(p));
    if Accepts(s.q).Sent? {
      var pending := s.accepted[|s.received|..];
      assert s'.accepted[|s.received|..] == pending + [p];
      assert (pending + [p])[..|pending|] == pending;
    }
  }

  lemma TakeKeepsLossless(s: Session, branch: Branch)
    requires Lossless(s) && Ready(s.q, branch)
    ensures Lossless(Step(s, Take(branch)))
    ensures !branch.TimerFired? ==> Step(s, Take(branch)).received == s.accepted
  {
    var pending := s.accepted[|s.received|..];
    assert s.accepted == s.received + pending;
    if !branch.TimerFired? && s.q.outbox != [] {
      assert CleanPackets(pending);
      BatchRoundTripIff(pending);
      assert s.accepted[|s.accepted|..] == [];
    }
  }

  /** The outbox is a lossless first-in first-out queue: in every run, whichever ready branch each poll
      takes and whatever is refused because the outbox is full, the packets decoded from the successive
      bodies followed by those still queued are exactly the accepted ones in order; and a poll that
      takes data brings the client fully up to date. */
  lemma {:induction false} OutboxIsLosslessFifo(s: Session, ops: seq<Op>)
    requires Lossless(s) && LegalRun(s, ops)
    ensures Lossless(Run(s, ops))
    decreases |ops|
  {
    if ops != [] {
      match ops[0] {
        case Push(p) => PushKeepsLossless(s, p);
        case Take(branch) => TakeKeepsLossless(s, branch);
      }
      OutboxIsLosslessFifo(Step(s, ops[0]), ops[1..]);
    }
  }

  /** An idle poll takes nothing and answers with a single ping, `2`, which the client decodes as such. */
  lemma IdlePollPings(q: Queue)
    requires !q.closed
    ensures Polled(q, TimerFired) == (q, Idle([50])) && Unbatch([50]) == Some([Packet(PING, [])])
  {
    hide Packets, Split, Unbatch;
    var p := Packet(PING, []);
    assert [50] + [] == [50] && Encode(p) == Some([50]);
    WiresSnoc([], p);
    assert [] + [p] == [p] && [] + [[50]] == [[50]];
    assert BatchOf([p]) == Some([50]);
    BatchRoundTripIff([p]);
  }

  /** A closed transport answers every poll with the end of the stream and queues nothing; a wake-up without
      data answers with nothing. */
  lemma EmptyPolls(q: Queue, branch: Branch, wire: bytes)
    ensures q.closed ==> Polled(q, branch) == (q, Closed) && Put(q, wire) == q && Accepts(q) == Eof
    ensures !q.closed && q.outbox == [] ==> Polled(q, Woken) == (q.(wake := false), Nothing)
  {
    assert q.outbox == [] ==> q.(outbox := [], wake := false) == q.(wake := false);
  }

  /** A packet is accepted exactly while the transport is open and fewer than 64 are queued; it can then be
      polled at once. */
  lemma PushAcceptedIff(s: Session, p: Packet)
    requires ValidKind(p.kind)
    ensures var s' := Step(s, Push(p));
            && (s'.accepted == s.accepted + [p] <==> !s.q.closed && |s.q.outbox| < 64)
            && (s'.accepted != s.accepted ==> Ready(s'.q, OutboxReady) && Ready(s'.q, Woken))
            && (|s.q.outbox| <= 64 ==> |s'.q.outbox| <= 64)
  {
    assert |s.accepted + [p]| != |s.accepted|;
  }

  /** The outbox never holds more than 64 packets. */
  lemma {:induction false} OutboxIsBounded(s: Session, ops: seq<Op>)
    requires |s.q.outbox| <= 64
    ensures |Run(s, ops).q.outbox| <= 64
    decreases |ops|
  {
    if ops != [] {
      OutboxIsBounded(Step(s, ops[0]), ops[1..]);
    }
  }

  /** From a new transport on: nothing is lost, repeated or reordered. */
  lemma FreshTransportIsLossless(ops: seq<Op>)
    requires LegalRun(FRESH, ops)
    ensures var s := Run(FRESH, ops);
            !s.garbled && s.received <= s.accepted && Wires(s.accepted[|s.received|..]) == Some(s.q.outbox)
  {
    OutboxIsLosslessFifo(FRESH, ops);
  }
}
