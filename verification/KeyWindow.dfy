/** The idempotency-key window of a session: a set of recently accepted keys with a bounded
    first-in first-out order (internal/session.go, `keyWindow`). */
module KeyWindows {
  import opened Commons

  type Key = string

  /** The last `max` accepted keys (none when deduplication is off). */
  function Window(accepted: seq<Key>, max: int): seq<Key> {
    if max <= 0 then []
    else if |accepted| <= max then accepted
    else accepted[|accepted| - max..]
  }

  // -------------------------------------------------------------------------
  // Runs of claims

  /** The keys accepted by a run of claims, oldest first. */
  function Accepted(claims: seq<Key>, max: int): seq<Key> {
    if claims == [] then []
    else
      var before := Accepted(claims[..|claims| - 1], max);
      var k := claims[|claims| - 1];
      if k in Window(before, max) then before else before + [k]
  }

  /** Two acceptances of one key lie more than `max` acceptances apart. */
  lemma {:induction false} AcceptancesAreFarApart(claims: seq<Key>, max: int, i: nat, j: nat)
    requires i < j < |Accepted(claims, max)|
    requires Accepted(claims, max)[i] == Accepted(claims, max)[j]
    ensures j - i > max
  {
    var before := Accepted(claims[..|claims| - 1], max);
    if j < |before| {
      AcceptancesAreFarApart(claims[..|claims| - 1], max, i, j);
    } else {
      var w := Window(before, max);
      assert forall x :: |before| - |w| <= x < |before| ==> before[x] == w[x - (|before| - |w|)];
    }
  }

  lemma OneMoreClaim(claims: seq<Key>, max: int, k: Key)
    ensures var acc := Accepted(claims, max);
            Accepted(claims + [k], max) == if k in Window(acc, max) then acc else acc + [k]
  {
    assert (claims + [k])[..|claims + [k]| - 1] == claims;
  }

  lemma InWindow(acc: seq<Key>, max: int, k: Key)
    ensures k !in Window(acc, max)
            <==> (forall i :: |acc| - max <= i < |acc| && 0 <= i ==> acc[i] != k)
  {
    var w := Window(acc, max);
    assert forall x :: 0 <= x < |w| ==> w[x] == acc[|acc| - |w| + x];
    if k !in w {
      forall i | |acc| - max <= i < |acc| && 0 <= i
        ensures acc[i] != k
      {
        assert acc[i] == w[i - (|acc| - |w|)];
      }
    }
  }

  /** Nothing is forgotten early: a key is refused only while it is among the last `max` accepted, so
      every claim of a fresh key, or of one pushed out of the window, is accepted. */
  lemma ClaimAcceptedIffOutsideWindow(claims: seq<Key>, max: int, k: Key)
    ensures var acc := Accepted(claims, max);
            Accepted(claims + [k], max) == acc + [k]
            <==> (forall i :: |acc| - max <= i < |acc| && 0 <= i ==> acc[i] != k)
  {
    hide Accepted, Window;
    OneMoreClaim(claims, max, k);
    InWindow(Accepted(claims, max), max, k);
    assert |Accepted(claims, max) + [k]| != |Accepted(claims, max)|;
  }

  /** The window slides by one. */
  lemma WindowAppend(acc: seq<Key>, max: int, k: Key)
    ensures max <= 0 ==> Window(acc, max) == Window(acc + [k], max) == []
    ensures max > 0 ==> var w := Window(acc, max);
            |w| <= max && Window(acc + [k], max) == if |w| == max then w[1..] + [k] else w + [k]
  {
  }

  // -------------------------------------------------------------------------
  // The set and the order slice

  class KeyWindow {
    const max: int
    var keys: set<Key>
    var order: seq<Key>
    var head: nat

    /** Every key claimed so far, those accepted, the elements dropped and the elements moved by compaction. */
    ghost var claims: seq<Key>
    ghost var accepted: seq<Key>
    ghost var drops: nat
    ghost var copies: nat

    ghost predicate Valid()
      reads this
    {
      && head <= |order|
      && accepted == Accepted(claims, max)
      && Live() == Window(accepted, max)
      && Distinct(Live())
      && keys == KeySet(Live())
      && (head < 64 || head < max)
      && (forall i :: 0 <= i < head ==> order[i] == "")
      && copies + head <= drops
    }

    ghost function Live(): seq<Key>
      requires head <= |order|
      reads this
    {
      order[head..]
    }

    constructor (max: int)
      ensures Valid() && this.max == max && claims == accepted == [] && drops == copies == 0
    {
      this.max := max;
      keys, order, head := {}, [], 0;
      claims, accepted, drops, copies := [], [], 0, 0;
    }

    /** The set never outgrows the window, nor the order slice a constant factor of it. */
    lemma Bounded()
      requires Valid()
      ensures |keys| <= Max(max, 0)
      ensures |order| <= Max(max, 0) + Max(63, max - 1)
      ensures copies <= drops
    {
      SetOfDistinct(Live());
    }

    /** Between two grants of one key there are at least `max` grants of others. */
    lemma GrantsAreFarApart(i: nat, j: nat)
      requires Valid() && i < j < |accepted| && accepted[i] == accepted[j]
      ensures j - i > max
    {
      AcceptancesAreFarApart(claims, max, i, j);
    }

    method Claim(key: Key) returns (granted: bool)
      requires Valid()
      modifies this
      ensures Valid() && claims == old(claims) + [key]
      ensures granted == (key !in Window(old(accepted), max))
      ensures accepted == if granted then old(accepted) + [key] else old(accepted)
    {
      hide Accepted, Window, Distinct, KeySet;
      OneMoreClaim(claims, max, key);
      KeySetHas(Live(), key);
      WindowAppend(accepted, max, key);
      claims := claims + [key];
      if max <= 0 {
        accepted := accepted + [key];
        return true;
      }
      if key in keys {
        return false;
      }
      KeySetAppend(Live(), key);
      assert (order + [key])[head..] == order[head..] + [key];
      keys := keys + {key};
      order := order + [key];
      accepted := accepted + [key];
      if |order| - head > max {
        EvictOldest();
      }
      return true;
    }

    method EvictOldest()
      requires head < |order| && (head < 64 || head < max)
      requires Live() != [] && Distinct(Live()) && keys == KeySet(Live())
      requires |Live()| == max + 1
      requires forall i :: 0 <= i < head ==> order[i] == ""
      requires copies + head <= drops
      modifies `keys, `order, `head, `drops, `copies
      ensures head <= |order| && Live() == old(Live())[1..]
      ensures Distinct(Live()) && keys == KeySet(Live())
      ensures head < 64 || head < max
      ensures forall i :: 0 <= i < head ==> order[i] == ""
      ensures copies + head <= drops
    {
      KeySetTail(Live());
      keys := keys - {order[head]};
      order := order[head := ""];
      head := head + 1;
      drops := drops + 1;
      assert order[head..] == old(order[head..])[1..];
      if head >= 64 && head * 2 >= |order| {
        copies := copies + (|order| - head);
        order := order[head..];
        head := 0;
      }
    }
  }

  function KeySet(s: seq<Key>): set<Key> {
    set k | k in s
  }

  lemma KeySetHas(s: seq<Key>, k: Key)
    ensures k in KeySet(s) <==> k in s
  {
  }

  lemma KeySetAppend(s: seq<Key>, k: Key)
    ensures KeySet(s + [k]) == KeySet(s) + {k}
    ensures Distinct(s) && k !in KeySet(s) ==> Distinct(s + [k])
  {
  }

  lemma KeySetTail(s: seq<Key>)
    requires s != [] && Distinct(s)
    ensures KeySet(s[1..]) == KeySet(s) - {s[0]} && Distinct(s[1..])
  {
  }

  lemma {:induction false} SetOfDistinct(s: seq<Key>)
    requires Distinct(s)
    ensures |KeySet(s)| == |s|
  {
    if s != [] {
      SetOfDistinct(s[1..]);
      KeySetTail(s);
    }
  }
}
