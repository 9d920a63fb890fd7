/** The bounded replay buffer of a session: its meaning as a sequence of entries, and the slice
    with a head offset and in-place compaction that implements it (internal/session.go). */
module ReplayBuffers {
  import opened Commons
  import opened Bytes

  datatype Entry = Entry(num: nat, data: bytes)

  /** What a released slot of the backing slice holds. */
  const BLANK := Entry(0, [])

  function Size(es: seq<Entry>): nat {
    if es == [] then 0 else |es[0].data| + Size(es[1..])
  }

  lemma {:induction false} SizeConcat(a: seq<Entry>, b: seq<Entry>)
    ensures Size(a + b) == Size(a) + Size(b)
  {
    if a == [] {
      assert a + b == b;
    } else {
      assert (a + b)[1..] == a[1..] + b;
      SizeConcat(a[1..], b);
    }
  }

  predicate Fits(es: seq<Entry>, maxMsgs: nat, maxBytes: nat) {
    |es| <= maxMsgs && Size(es) <= maxBytes
  }

  // -------------------------------------------------------------------------
  // Meaning of the operations

  /** Entries are dropped from the front until both limits hold. */
  function Trim(es: seq<Entry>, maxMsgs: nat, maxBytes: nat): seq<Entry> {
    if es == [] || Fits(es, maxMsgs, maxBytes) then es else Trim(es[1..], maxMsgs, maxBytes)
  }

  /** A frame too large for the buffer leaves a hole, so nothing before it stays replayable. */
  function Pushed(es: seq<Entry>, e: Entry, maxMsgs: nat, maxBytes: nat): seq<Entry> {
    if |e.data| > maxBytes then [] else Trim(es + [e], maxMsgs, maxBytes)
  }

  function Acked(es: seq<Entry>, n: nat): seq<Entry> {
    if es == [] || es[0].num > n then es else Acked(es[1..], n)
  }

  predicate Covers(es: seq<Entry>, n: nat) {
    es != [] && es[0].num <= n + 1
  }

  function After(es: seq<Entry>, n: nat): seq<Entry> {
    if es == [] then []
    else (if es[0].num > n then [es[0]] else []) + After(es[1..], n)
  }

  predicate IsSuffix(t: seq<Entry>, s: seq<Entry>) {
    |t| <= |s| && t == s[|s| - |t|..]
  }

  /** `Trim` yields the longest suffix within both limits. */
  lemma {:induction false} TrimIsLongestFittingSuffix(es: seq<Entry>, maxMsgs: nat, maxBytes: nat)
    ensures var t := Trim(es, maxMsgs, maxBytes);
            && IsSuffix(t, es) && Fits(t, maxMsgs, maxBytes)
            && forall k :: 0 <= k <= |es| && Fits(es[k..], maxMsgs, maxBytes) ==> |es| - k <= |t|
  {
    var t := Trim(es, maxMsgs, maxBytes);
    if es != [] && !Fits(es, maxMsgs, maxBytes) {
      var rest := es[1..];
      assert es[0..] == es;
      TrimIsLongestFittingSuffix(rest, maxMsgs, maxBytes);
      assert rest[|rest| - |t|..] == es[|es| - |t|..];
      forall k | 0 <= k <= |es| && Fits(es[k..], maxMsgs, maxBytes)
        ensures |es| - k <= |t|
      {
        if k > 0 {
          assert es[k..] == rest[k - 1..];
        }
      }
    } else {
      assert es[0..] == es;
    }
  }

  /** The newest frame survives its own push unless it is oversize (or nothing may be kept). */
  lemma PushKeepsNewest(es: seq<Entry>, e: Entry, maxMsgs: nat, maxBytes: nat)
    requires maxMsgs > 0
    ensures var t := Pushed(es, e, maxMsgs, maxBytes);
            if |e.data| <= maxBytes then t != [] && t[|t| - 1] == e else t == []
  {
    if |e.data| <= maxBytes {
      var all := es + [e];
      TrimIsLongestFittingSuffix(all, maxMsgs, maxBytes);
      assert all[|es|..] == [e];
      assert Fits([e], maxMsgs, maxBytes);
    }
  }

  /** A push keeps as much as the limits allow: the longest suffix of the old entries and the new one that
      fits both; nothing when the new one alone does not. */
  lemma PushKeepsLongestSuffix(es: seq<Entry>, e: Entry, maxMsgs: nat, maxBytes: nat)
    ensures var t, all := Pushed(es, e, maxMsgs, maxBytes), es + [e];
            && IsSuffix(t, all) && Fits(t, maxMsgs, maxBytes)
            && forall k :: 0 <= k <= |all| && Fits(all[k..], maxMsgs, maxBytes) ==> |all| - k <= |t|
  {
    var all := es + [e];
    TrimIsLongestFittingSuffix(all, maxMsgs, maxBytes);
    if |e.data| > maxBytes {
      forall k | 0 <= k < |all|
        ensures !Fits(all[k..], maxMsgs, maxBytes)
      {
        SizeConcat(es[k..], [e]);
        assert all[k..] == es[k..] + [e];
      }
      assert all[|all|..] == [];
    }
  }

  lemma SuffixOfExtended(u: seq<Entry>, t: seq<Entry>, all: seq<Entry>, e: Entry)
    requires IsSuffix(t, all) && IsSuffix(u, t + [e])
    ensures IsSuffix(u, all + [e])
  {
    assert t + [e] == (all + [e])[|all| - |t|..];
  }

  /** A fitting suffix of the extended run is one of the kept run, extended. */
  lemma KeptIsEnough(v: seq<Entry>, all: seq<Entry>, e: Entry, maxMsgs: nat, maxBytes: nat)
    requires IsSuffix(v, all + [e]) && Fits(v, maxMsgs, maxBytes)
    ensures IsSuffix(v, Trim(all, maxMsgs, maxBytes) + [e])
  {
    hide Trim;
    var t := Trim(all, maxMsgs, maxBytes);
    TrimIsLongestFittingSuffix(all, maxMsgs, maxBytes);
    if v != [] {
      var k := |all| + 1 - |v|;
      assert v == all[k..] + [e];
      SizeConcat(all[k..], [e]);
      assert |v| <= |t| + 1;
      assert t[|t| + 1 - |v|..] == all[k..];
    }
  }

  /** Pushing one by one keeps what trimming everything at once would keep. */
  lemma PushOntoLongest(all: seq<Entry>, e: Entry, maxMsgs: nat, maxBytes: nat)
    ensures Pushed(Trim(all, maxMsgs, maxBytes), e, maxMsgs, maxBytes) == Trim(all + [e], maxMsgs, maxBytes)
  {
    hide Trim, Pushed, Fits;
    var t := Trim(all, maxMsgs, maxBytes);
    var u, v := Pushed(t, e, maxMsgs, maxBytes), Trim(all + [e], maxMsgs, maxBytes);
    TrimIsLongestFittingSuffix(all, maxMsgs, maxBytes);
    PushKeepsLongestSuffix(t, e, maxMsgs, maxBytes);
    TrimIsLongestFittingSuffix(all + [e], maxMsgs, maxBytes);
    SuffixOfExtended(u, t, all, e);
    KeptIsEnough(v, all, e, maxMsgs, maxBytes);
    assert (all + [e])[|all| + 1 - |u|..] == u && (t + [e])[|t| + 1 - |v|..] == v;
    assert |u| == |v|;
  }

  // -------------------------------------------------------------------------
  // Contiguous runs of the commit log

  /** `es` holds the last `|es|` frames of the log, numbered from their position. */
  ghost predicate IsLogSuffix(es: seq<Entry>, log: seq<bytes>) {
    && |es| <= |log|
    && forall i :: 0 <= i < |es| ==>
         es[i] == Entry(|log| - |es| + i + 1, log[|log| - |es| + i])
  }

  /** Frame number `i + 1` of the log, for every `i` from `from` on. */
  function Missing(log: seq<bytes>, from: nat): seq<Entry>
    requires from <= |log|
  {
    seq(|log| - from, i requires 0 <= i < |log| - from => Entry(from + i + 1, log[from + i]))
  }

  lemma SuffixOfLogSuffix(t: seq<Entry>, s: seq<Entry>, log: seq<bytes>)
    requires IsLogSuffix(s, log) && IsSuffix(t, s)
    ensures IsLogSuffix(t, log)
  {
    forall i | 0 <= i < |t|
      ensures t[i] == Entry(|log| - |t| + i + 1, log[|log| - |t| + i])
    {
      assert t[i] == s[|s| - |t| + i];
    }
  }

  /** Pushing the next frame keeps the buffer a contiguous suffix of the extended log, whatever is
      evicted, and keeps it within both limits. */
  lemma PushKeepsLogSuffix(es: seq<Entry>, log: seq<bytes>, data: bytes, maxMsgs: nat, maxBytes: nat)
    requires IsLogSuffix(es, log)
    ensures IsLogSuffix(Pushed(es, Entry(|log| + 1, data), maxMsgs, maxBytes), log + [data])
    ensures Fits(Pushed(es, Entry(|log| + 1, data), maxMsgs, maxBytes), maxMsgs, maxBytes)
  {
    var e := Entry(|log| + 1, data);
    if |data| <= maxBytes {
      assert IsLogSuffix(es + [e], log + [data]);
      TrimIsLongestFittingSuffix(es + [e], maxMsgs, maxBytes);
      SuffixOfLogSuffix(Pushed(es, e, maxMsgs, maxBytes), es + [e], log + [data]);
    }
  }

  /** On a contiguous run, acknowledging up to `n` leaves exactly the frames numbered above `n`. */
  lemma {:induction false} AckedOnLogSuffix(es: seq<Entry>, log: seq<bytes>, n: nat)
    requires IsLogSuffix(es, log)
    ensures var t := Acked(es, n);
            && IsSuffix(t, es) && IsLogSuffix(t, log)
            && |t| == (if n <= |log| - |es| then |es| else if n < |log| then |log| - n else 0)
  {
    if es != [] && es[0].num <= n {
      assert IsSuffix(es[1..], es);
      SuffixOfLogSuffix(es[1..], es, log);
      AckedOnLogSuffix(es[1..], log, n);
      var t := Acked(es, n);
      assert es[1..][|es| - 1 - |t|..] == es[|es| - |t|..];
    }
  }

  lemma {:induction false} SizeOfSuffix(t: seq<Entry>, s: seq<Entry>)
    requires IsSuffix(t, s)
    ensures Size(t) <= Size(s)
  {
    SizeConcat(s[..|s| - |t|], t);
    assert s == s[..|s| - |t|] + t;
  }

  /** Trimming a suffix keeps what trimming the whole keeps, as far as the suffix reaches. */
  lemma {:induction false} TrimOfSuffix(t: seq<Entry>, s: seq<Entry>, maxMsgs: nat, maxBytes: nat)
    requires IsSuffix(t, s)
    ensures var whole := Trim(s, maxMsgs, maxBytes);
            Trim(t, maxMsgs, maxBytes) == if |whole| <= |t| then whole else t
    decreases |s|
  {
    TrimIsLongestFittingSuffix(s, maxMsgs, maxBytes);
    if |t| == |s| {
      assert t == s;
    } else if Fits(s, maxMsgs, maxBytes) {
      SizeOfSuffix(t, s);
    } else {
      assert s[1..][|s[1..]| - |t|..] == s[|s| - |t|..];
      TrimOfSuffix(t, s[1..], maxMsgs, maxBytes);
    }
  }

  /** What a push keeps does not depend on entries that were dropped before it, as far as the rest reaches. */
  lemma PushOfSuffix(t: seq<Entry>, s: seq<Entry>, e: Entry, maxMsgs: nat, maxBytes: nat)
    requires IsSuffix(t, s)
    ensures var whole := Pushed(s, e, maxMsgs, maxBytes);
            Pushed(t, e, maxMsgs, maxBytes) == if |whole| <= |t| + 1 then whole else t + [e]
  {
    hide Trim;
    assert IsSuffix(t + [e], s + [e]);
    TrimOfSuffix(t + [e], s + [e], maxMsgs, maxBytes);
  }

  lemma {:induction false} AfterBelowFirst(es: seq<Entry>, n: nat)
    requires forall i :: 0 <= i < |es| ==> es[i].num > n
    ensures After(es, n) == es
  {
    if es != [] {
      AfterBelowFirst(es[1..], n);
    }
  }

  /** Looking only at the oldest entry decides whether every frame after `n` is still buffered. */
  lemma CoversMeansNothingMissing(es: seq<Entry>, log: seq<bytes>, n: nat)
    requires IsLogSuffix(es, log) && n < |log|
    ensures Covers(es, n) <==> (forall i :: n <= i < |log| ==> Entry(i + 1, log[i]) in es)
  {
    if Covers(es, n) {
      forall i | n <= i < |log|
        ensures Entry(i + 1, log[i]) in es
      {
        assert es[i - (|log| - |es|)] == Entry(i + 1, log[i]);
      }
    } else if Entry(n + 1, log[n]) in es {
      assert false;
    }
  }

  lemma MissingIsSuffix(log: seq<bytes>, n: nat)
    requires n <= |log|
    ensures Missing(log, 0)[n..] == Missing(log, n)
  {
  }

  lemma MissingNext(log: seq<bytes>, data: bytes)
    ensures Missing(log + [data], 0) == Missing(log, 0) + [Entry(|log| + 1, data)]
  {
  }

  /** A buffer that holds as much of the log as fits covers a position exactly when everything after it
      fits. */
  lemma LongestCoversIff(log: seq<bytes>, n: nat, maxMsgs: nat, maxBytes: nat)
    requires n < |log|
    ensures Covers(Trim(Missing(log, 0), maxMsgs, maxBytes), n) <==> Fits(Missing(log, n), maxMsgs, maxBytes)
  {
    hide Trim;
    var all := Missing(log, 0);
    var t := Trim(all, maxMsgs, maxBytes);
    TrimIsLongestFittingSuffix(all, maxMsgs, maxBytes);
    MissingIsSuffix(log, n);
    if Covers(t, n) {
      assert t[0] == all[|all| - |t|];
      assert IsSuffix(all[n..], t);
      SizeOfSuffix(all[n..], t);
    }
  }

  /** What a resume at `n` replays: exactly the frames after `n`, with their original bytes. */
  lemma ReplayIsMissing(es: seq<Entry>, log: seq<bytes>, n: nat)
    requires IsLogSuffix(es, log) && n <= |log|
    requires n < |log| ==> Covers(es, n)
    ensures After(Acked(es, n), n) == Acked(es, n) == Missing(log, n)
  {
    AckedOnLogSuffix(es, log, n);
    AfterBelowFirst(Acked(es, n), n);
  }

  // -------------------------------------------------------------------------
  // The slice

  class ReplayBuffer {
    var entries: seq<Entry>
    var head: nat
    var size: int
    const maxMsgs: nat
    const maxBytes: nat

    /** Elements discarded and elements moved by compaction since the buffer was created. */
    ghost var drops: nat
    ghost var copies: nat

    ghost predicate Valid()
      reads this
    {
      && Consistent()
      && Fits(Live(), maxMsgs, maxBytes)
    }

    /** Everything but the two limits, which `Push` exceeds for a moment. */
    ghost predicate Consistent()
      reads this
    {
      && head <= |entries|
      && (head == |entries| ==> head == 0)
      && (head < 64 || head < |entries| - head)
      && (forall i :: 0 <= i < head ==> entries[i] == BLANK)
      && size == Size(entries[head..])
      && copies + head <= drops
    }

    ghost function Live(): seq<Entry>
      requires head <= |entries|
      reads this
    {
      entries[head..]
    }

    constructor (maxMsgs: nat, maxBytes: nat)
      ensures Valid() && Live() == []
      ensures this.maxMsgs == maxMsgs && this.maxBytes == maxBytes
      ensures drops == copies == 0
    {
      this.maxMsgs, this.maxBytes := maxMsgs, maxBytes;
      entries, head, size, drops, copies := [], 0, 0, 0, 0;
    }

    /** The backing slice stays within a constant factor of the message limit, and compaction has
        moved no more elements than were discarded. */
    lemma Bounded()
      requires Valid()
      ensures |entries| <= maxMsgs + Max(63, maxMsgs - 1)
      ensures copies <= drops
      ensures Size(entries) == size <= maxBytes
    {
      SizeConcat(entries[..head], entries[head..]);
      assert entries == entries[..head] + entries[head..];
      BlanksAreEmpty(entries[..head]);
    }

    method Push(num: nat, data: bytes)
      requires Valid()
      modifies this
      ensures Valid()
      ensures Live() == Pushed(old(Live()), Entry(num, data), maxMsgs, maxBytes)
    {
      if |data| > maxBytes {
        Reset();
        return;
      }
      ghost var all := Live() + [Entry(num, data)];
      SizeConcat(Live(), [Entry(num, data)]);
      entries := entries + [Entry(num, data)];
      size := size + |data|;
      assert Live() == all;
      while |entries| - head > maxMsgs || size > maxBytes
        invariant Consistent()
        invariant Trim(Live(), maxMsgs, maxBytes) == Trim(all, maxMsgs, maxBytes)
        decreases |Live()|
      {
        DropOldest();
      }
    }

    method Reset()
      requires Consistent()
      modifies this
      ensures Valid() && Live() == []
    {
      entries := [];
      head := 0;
      size := 0;
    }

    method DropOldest()
      requires Consistent() && Live() != []
      modifies this
      ensures Consistent() && Live() == old(Live())[1..]
      ensures drops == old(drops) + 1
    {
      size := size - |entries[head].data|;
      entries := entries[head := BLANK];
      head := head + 1;
      drops := drops + 1;
      assert entries[head..] == old(Live())[1..];
      if head == |entries| {
        entries := [];
        head := 0;
        return;
      }
      if head >= 64 && head * 2 >= |entries| {
        copies := copies + (|entries| - head);
        entries := entries[head..];
        head := 0;
      }
    }

    method AckUpTo(n: nat)
      requires Valid()
      modifies this
      ensures Valid()
      ensures Live() == Acked(old(Live()), n)
    {
      ghost var before := Live();
      while |entries| - head > 0 && entries[head].num <= n
        invariant Consistent()
        invariant IsSuffix(Live(), before)
        invariant Acked(Live(), n) == Acked(before, n)
        decreases |Live()|
      {
        DropOldest();
      }
      SizeOfSuffix(Live(), before);
    }

    method CoversAfter(n: nat) returns (r: bool)
      requires Valid()
      ensures r == Covers(Live(), n)
    {
      r := |entries| - head > 0 && entries[head].num <= n + 1;
    }

    method EntriesAfter(n: nat) returns (out: seq<Entry>)
      requires Valid()
      ensures out == After(Live(), n)
    {
      out := [];
      var i := head;
      assert entries[i..] == Live();
      while i < |entries|
        invariant head <= i <= |entries|
        invariant out + After(entries[i..], n) == After(Live(), n)
      {
        assert entries[i..][1..] == entries[i + 1..];
        if entries[i].num > n {
          out := out + [entries[i]];
        }
        i := i + 1;
      }
    }
  }

  lemma {:induction false} BlanksAreEmpty(es: seq<Entry>)
    requires forall i :: 0 <= i < |es| ==> es[i] == BLANK
    ensures Size(es) == 0
  {
    if es != [] {
      BlanksAreEmpty(es[1..]);
    }
  }
}
