/**
 * The per-channel mean-value cache (`mean_values_`). It starts as the
 * configured `mean_value` list and is grown on first use to one entry per
 * channel by repeating the configured group cyclically. Three transform
 * overloads grow it, each with its own check and its own loop.
 */
module Means {

  import opened Arith

  /** The list grown to cover `channels` channels: entry c is `m[c % |m|]`. */
  function Replicated(m: seq<real>, channels: nat): seq<real>
    requires |m| > 0
  {
    seq(if |m| < channels then channels else |m|, c requires 0 <= c => m[c % |m|])
  }

  /** Check of the single-datum transform: one value, or a divisor of the channel count. */
  predicate DatumMeanCheck(size: nat, channels: nat)
    requires size > 0
  {
    size == 1 || channels % size == 0
  }

  /** Check of the paired data/label transform. */
  predicate PairedMeanCheck(size: nat, channels: nat)
    requires size > 0
  {
    size == 1 || size == channels || channels % size == 0
  }

  /** Check of the image and tensor transforms: one value, or exactly one per channel. */
  predicate ExactMeanCheck(size: int, channels: int)
  {
    size == 1 || size == channels
  }

  /**
   * Growth keeps the configured values in front, covers every channel, and
   * gives channel c the value of channel `c % |m|`.
   */
  lemma ReplicatedShape(m: seq<real>, channels: nat)
    requires |m| > 0
    ensures |Replicated(m, channels)| >= channels && |Replicated(m, channels)| >= |m|
    ensures Replicated(m, channels)[..|m|] == m
    ensures forall c :: 0 <= c < |Replicated(m, channels)| ==> Replicated(m, channels)[c] == m[c % |m|]
  {
    var r := Replicated(m, channels);
    forall c | 0 <= c < |m|
      ensures r[c] == m[c]
    {
      assert c % |m| == c;
    }
  }

  /**
   * Once the check has passed, the grown list has exactly one entry per
   * channel, passes the check again, and growing it a second time changes
   * nothing: the cache does not grow from call to call.
   */
  lemma {:induction false} ReplicatedIdempotent(m: seq<real>, channels: nat)
    requires |m| > 0 && channels > 0 && PairedMeanCheck(|m|, channels)
    ensures |Replicated(m, channels)| == channels
    ensures DatumMeanCheck(|Replicated(m, channels)|, channels)
    ensures Replicated(Replicated(m, channels), channels) == Replicated(m, channels)
  {
    var r := Replicated(m, channels);
    assert |r| == channels;
    forall c | 0 <= c < channels
      ensures Replicated(r, channels)[c] == r[c]
    {
      assert c % channels == c;
    }
  }

  /** The datum check is the stricter one: a list it accepts the paired check accepts too. */
  lemma DatumCheckImpliesPaired(size: nat, channels: nat)
    requires size > 0 && DatumMeanCheck(size, channels)
    ensures PairedMeanCheck(size, channels)
  {
  }

  /** Every entry of `r` is the configured value its index selects cyclically. */
  predicate Cyclic(r: seq<real>, m: seq<real>)
    requires |m| > 0
  {
    forall i :: 0 <= i < |r| ==> r[i] == m[i % |m|]
  }

  /** The configured list is cyclic in itself. */
  lemma CyclicStart(m: seq<real>)
    requires |m| > 0
    ensures Cyclic(m, m)
  {
    forall i | 0 <= i < |m|
      ensures m[i] == m[i % |m|]
    {
      DivModUnique(0, i, |m|);
    }
  }

  /** A cyclic list of the replicated length is the replicated list. */
  lemma CyclicIsReplicated(r: seq<real>, m: seq<real>, channels: nat)
    requires |m| > 0 && Cyclic(r, m)
    requires |r| == if |m| < channels then channels else |m|
    ensures r == Replicated(m, channels)
  {
  }

  /** Appending the entry one group back keeps a list cyclic, for a group of |m| entries or a single value. */
  lemma CyclicExtend(r: seq<real>, m: seq<real>, group: int)
    requires |m| > 0 && Cyclic(r, m) && 0 < group <= |r| && (group == |m| || |m| == 1)
    ensures Cyclic(r + [r[|r| - group]], m)
  {
    var c := |r|;
    if |m| == 1 {
      DivModUnique(c, 0, 1);
      DivModUnique(c - group, 0, 1);
    } else {
      ShiftByPeriod(c, group);
    }
  }

  /** Appending the entry one period back keeps a list cyclic. */
  lemma CyclicExtendPeriod(r: seq<real>, m: seq<real>, c: int, period: int)
    requires period == |m| > 0 && Cyclic(r, m) && c == |r| >= period
    ensures Cyclic(r + [r[c - period]], m)
  {
    ShiftByPeriod(c, period);
  }

  /** Appending the entry `|r| % group` keeps a list cyclic, for a group of |m| entries or a single value. */
  lemma CyclicExtendMod(r: seq<real>, m: seq<real>, group: int)
    requires |m| > 0 && Cyclic(r, m) && 0 < group <= |r| && (group == |m| || |m| == 1)
    ensures 0 <= |r| % group < |r|
    ensures Cyclic(r + [r[|r| % group]], m)
  {
    var c := |r|;
    var k := c % group;
    if |m| == 1 {
      DivModUnique(c, 0, 1);
      DivModUnique(k, 0, 1);
    } else {
      DivModUnique(0, k, group);
    }
  }

  /**
   * Lines 182-195 of the single-datum transform: one value is pushed
   * `channels - 1` more times; a shorter group is then repeated, entry c
   * copying entry `c % group`.
   */
  method GrowForDatum(m: seq<real>, channels: nat) returns (r: seq<real>)
    requires |m| > 0
    ensures r == Replicated(m, channels)
  {
    r := m;
    CyclicStart(m);
    if channels > 1 && |r| == 1 {
      var c := 1;
      while c < channels
        invariant 1 <= c <= channels && |r| == c && Cyclic(r, m)
      {
        CyclicExtend(r, m, c);
        r := r + [r[0]];
        c := c + 1;
      }
    }
    if |r| < channels {
      var group := |r|;
      var c := group;
      while c < channels
        invariant group <= c <= channels && |r| == c && Cyclic(r, m)
      {
        CyclicExtendMod(r, m, group);
        r := r + [r[c % group]];
        c := c + 1;
      }
    }
    CyclicIsReplicated(r, m, channels);
  }

  /**
   * Lines 359-365 of the paired transform: when the channel count is a
   * multiple of the list size, entry c copies entry `c - size`. Under the
   * check of line 357 the result is the same cyclic growth.
   */
  method GrowForPaired(m: seq<real>, channels: nat) returns (r: seq<real>)
    requires |m| > 0 && PairedMeanCheck(|m|, channels)
    ensures r == Replicated(m, channels)
  {
    r := m;
    CyclicStart(m);
    PairedCheckDivides(|m|, channels);
    if channels > 1 && channels % |m| == 0 {
      r := RepeatPeriod(m, channels);
    }
    CyclicIsReplicated(r, m, channels);
  }

  /** The loop of lines 361-364: entry c copies entry `c - |m|` until every channel has one. */
  method RepeatPeriod(m: seq<real>, channels: nat) returns (r: seq<real>)
    requires 0 < |m| <= channels
    ensures |r| == channels && Cyclic(r, m)
  {
    r := m;
    CyclicStart(m);
    var temp := |m|;
    var c := temp;
    while c < channels
      invariant temp <= c <= channels && |r| == c && Cyclic(r, m)
    {
      CyclicExtendPeriod(r, m, c, temp);
      r := r + [r[c - temp]];
      c := c + 1;
    }
  }

  /** The paired check accepts only lists whose size divides the channel count, so never more values than channels. */
  lemma PairedCheckDivides(size: nat, channels: nat)
    requires size > 0 && PairedMeanCheck(size, channels)
    ensures channels % size == 0
    ensures channels > 0 ==> size <= channels
  {
    if size == 1 {
      DivModUnique(channels, 0, 1);
    } else if size == channels {
      DivModUnique(1, 0, channels);
    }
    var q := channels / size;
    assert q * size == channels;
    if channels > 0 {
      assert q >= 1;
      MulLe(1, q, size);
    }
  }

  lemma ShiftByPeriod(c: int, p: int)
    requires p > 0 && c >= p
    ensures (c - p) % p == c % p
  {
    var q, r := c / p, c % p;
    assert c - p == (q - 1) * p + r;
    DivModUnique(q - 1, r, p);
  }

  /**
   * Lines 759-764 of the image transform: a single value is pushed once
   * per further channel. Under the check of line 756 this is the same
   * growth again.
   */
  method GrowForImage(m: seq<real>, channels: nat) returns (r: seq<real>)
    requires |m| > 0 && ExactMeanCheck(|m|, channels)
    ensures r == Replicated(m, channels)
  {
    r := m;
    CyclicStart(m);
    if channels > 1 && |r| == 1 {
      var c := 1;
      while c < channels
        invariant 1 <= c <= channels && |r| == c && Cyclic(r, m)
      {
        CyclicExtend(r, m, c);
        r := r + [r[0]];
        c := c + 1;
      }
    }
    CyclicIsReplicated(r, m, channels);
  }
}
