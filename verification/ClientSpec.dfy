/** One connection: its pre-queue, its bounded outbound queue, what has been written to the transport,
    and the shape of the resulting stream (internal/client.go). */
module ClientSpec {
  import opened Commons
  import opened Bytes
  import opened Frames
  import opened SessionSpec

  /** `out` is what the write pump has handed to the transport. `base` is history: the position the
      session was resumed from. `bound` records that the connect path has run `openSession`, after
      which the pumps start. */
  datatype Client = Client(
    session: Option<SessionId>,
    bound: bool,
    base: nat,
    out: seq<Wire>,
    replay: seq<Wire>,
    queue: seq<Wire>,
    cap: nat,
    shut: bool,
    parked: bool,
    noResume: bool,
    dropped: nat)

  function NewClient(cap: nat): Client {
    Client(None, false, 0, [], [], [], cap, false, false, false, 0)
  }

  /** Everything ever addressed to this connection, in the order the peer would read it. */
  function Stream(k: Client): seq<Wire> {
    k.out + k.replay + k.queue
  }

  /** `enqueue`: the outcome of a non-blocking send on the queue. */
  function Room(k: Client): Enqueued {
    RoomIn(k.shut, |k.queue|, k.cap)
  }

  /** The connection keeps its capacity, does not reopen, and its queue does not outgrow the capacity. */
  predicate SameConn(k: Client, k': Client) {
    && k'.cap == k.cap && (k.shut ==> k'.shut)
    && (|k.queue| <= k.cap ==> |k'.queue| <= k'.cap)
  }

  /** The live client after a delivery through its session. */
  function Receive<C>(k: Client, d: Delivery<C>): Client {
    k.(queue := if d.queued.Some? then k.queue + [d.queued.value] else k.queue,
       dropped := if d.clientDrop then k.dropped + 1 else k.dropped)
  }

  /** `TrySendPolicy` without a session; the second component is `false` for "disconnect". */
  function SendPlain(k: Client, data: bytes, pol: Policy): (Client, bool) {
    match Room(k)
    case Accepted => (k.(queue := k.queue + [Event(data)]), true)
    case Full => if pol.Disconnect? then (k, false) else (k.(dropped := k.dropped + 1), true)
    case Shut => (k, false)
  }

  /** One write of `WritePump`: the pre-queue goes first, then the queue. */
  function Pump(k: Client): Client {
    if k.replay != [] then k.(out := k.out + [k.replay[0]], replay := k.replay[1..])
    else if k.queue != [] then k.(out := k.out + [k.queue[0]], queue := k.queue[1..])
    else k
  }

  /** One frame is written if there is one, and the stream as a whole stays as it is. */
  lemma PumpKeepsStream(k: Client)
    ensures Stream(Pump(k)) == Stream(k)
    ensures k.out <= Pump(k).out && |Pump(k).out| == |k.out| + (if k.replay + k.queue == [] then 0 else 1)
    ensures |Pump(k).queue| <= |k.queue|
  {
  }

  // -------------------------------------------------------------------------
  // Shape of a stream

  predicate IsPlain(f: Wire) {
    f.Event? && SeqOf(f.data) == None
  }

  ghost predicate AllPlain(ws: seq<Wire>) {
    forall i :: 0 <= i < |ws| ==> IsPlain(ws[i])
  }

  ghost predicate AllEvents(log: seq<bytes>) {
    forall i :: 0 <= i < |log| ==> IsEvent(log[i])
  }

  /** How many frames of `ws` carry a sequence number. */
  function Numbered(ws: seq<Wire>): nat {
    if ws == [] then 0
    else Numbered(ws[..|ws| - 1]) + (if IsPlain(ws[|ws| - 1]) then 0 else 1)
  }

  /** `ws` consists of unnumbered frames and of frames `base + 1`, `base + 2`, ... of the log, in
      order and without holes, each with its original bytes. */
  ghost predicate Follows(ws: seq<Wire>, base: nat, log: seq<bytes>) {
    ws != [] ==>
      var init, last := ws[..|ws| - 1], ws[|ws| - 1];
      && Follows(init, base, log)
      && (IsPlain(last)
          || (var n := base + Numbered(init); n < |log| && last == Event(Stamp(log[n], n + 1))))
  }

  lemma {:induction false} FollowsLongerLog(ws: seq<Wire>, base: nat, log: seq<bytes>, log': seq<bytes>)
    requires Follows(ws, base, log) && log <= log'
    ensures Follows(ws, base, log')
  {
    if ws != [] {
      FollowsLongerLog(ws[..|ws| - 1], base, log, log');
    }
  }

  lemma {:induction false} FollowsPrefix(ws: seq<Wire>, base: nat, log: seq<bytes>, k: nat)
    requires Follows(ws, base, log) && k <= |ws|
    ensures Follows(ws[..k], base, log)
    ensures Numbered(ws[..k]) <= Numbered(ws)
  {
    if k < |ws| {
      FollowsPrefix(ws[..|ws| - 1], base, log, k);
      assert ws[..|ws| - 1][..k] == ws[..k];
    } else {
      assert ws[..k] == ws;
    }
  }

  /** The frame at position `i` of a stream that follows the log. */
  lemma {:induction false} FollowsAt(ws: seq<Wire>, base: nat, log: seq<bytes>, i: nat)
    requires Follows(ws, base, log) && i < |ws|
    ensures Numbered(ws[..i + 1]) == Numbered(ws[..i]) + (if IsPlain(ws[i]) then 0 else 1)
    ensures IsPlain(ws[i]) || (var n := base + Numbered(ws[..i]);
                               n < |log| && ws[i] == Event(Stamp(log[n], n + 1)))
  {
    FollowsPrefix(ws, base, log, i + 1);
    assert ws[..i + 1][..i] == ws[..i];
  }

  lemma AppendPlain(ws: seq<Wire>, f: Wire, base: nat, log: seq<bytes>)
    requires Follows(ws, base, log) && IsPlain(f)
    ensures Follows(ws + [f], base, log) && Numbered(ws + [f]) == Numbered(ws)
  {
    assert (ws + [f])[..|ws + [f]| - 1] == ws;
  }

  /** The next committed frame continues a stream that has reached the end of the log. */
  lemma AppendNumbered(ws: seq<Wire>, data: bytes, base: nat, log: seq<bytes>)
    requires Follows(ws, base, log) && base + Numbered(ws) == |log| && IsObject(data)
    ensures var f := Event(Stamp(data, |log| + 1));
            Follows(ws + [f], base, log + [data]) && Numbered(ws + [f]) == Numbered(ws) + 1
  {
    hide Stamp, HasSeq, BodyOf;
    var f := Event(Stamp(data, |log| + 1));
    StampRoundTrip(data, |log| + 1);
    FollowsLongerLog(ws, base, log, log + [data]);
    assert (ws + [f])[..|ws + [f]| - 1] == ws;
  }

  lemma {:induction false} AppendPlains(ws: seq<Wire>, fs: seq<Wire>, base: nat, log: seq<bytes>)
    requires Follows(ws, base, log) && AllPlain(fs)
    ensures Follows(ws + fs, base, log) && Numbered(ws + fs) == Numbered(ws)
  {
    hide IsPlain, Numbered, Follows;
    if fs == [] {
      assert ws + fs == ws;
    } else {
      var init := fs[..|fs| - 1];
      AppendPlains(ws, init, base, log);
      AppendPlain(ws + init, fs[|fs| - 1], base, log);
      assert ws + fs == (ws + init) + [fs[|fs| - 1]];
    }
  }

  lemma MissingOneMore(log: seq<bytes>, data: bytes, from: nat)
    requires from <= |log|
    ensures MissingFrames(log + [data], from) == MissingFrames(log, from) + [Event(Stamp(data, |log| + 1))]
  {
  }

  /** A replay is a complete continuation from the resume position. */
  lemma {:induction false} MissingFollows(log: seq<bytes>, from: nat)
    requires from <= |log| && AllEvents(log)
    ensures Follows(MissingFrames(log, from), from, log)
    ensures Numbered(MissingFrames(log, from)) == |log| - from
  {
    if from == |log| {
      assert MissingFrames(log, from) == [];
    } else {
      var log0, data := log[..|log| - 1], log[|log| - 1];
      assert log0 + [data] == log;
      MissingFollows(log0, from);
      AppendNumbered(MissingFrames(log0, from), data, from, log0);
      MissingOneMore(log0, data, from);
    }
  }
}
