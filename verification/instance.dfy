/**
 * The instance-selection step of Transform_aug when no augmentation is
 * requested: find the largest instance id in channel 1 of a label datum
 * (skipping the ignore label), draw one id in [1, max], and turn every
 * cell of the label into 1 where it holds that id and 0 elsewhere.
 */
module Instance {

  import opened Types

  /** A label byte read through a signed `char`, as `(int)(*label)[i]` does on common platforms. */
  function SignedChar(b: byte): (r: int)
    ensures -128 <= r <= 127
    ensures (r + 256) % 256 == b
  {
    if b < 128 then b else b - 256
  }

  /** The label plane read through signed `char`s. */
  function Signed(s: seq<byte>): (r: seq<int>)
    ensures |r| == |s| && forall i :: 0 <= i < |s| ==> r[i] == SignedChar(s[i])
  {
    seq(|s|, i requires 0 <= i < |s| => SignedChar(s[i]))
  }

  /**
   * The running `max_idx = std::max(max_idx, v)` over every value that is
   * not the ignore label, starting from 0: the largest such value, or 0
   * when there is none above 0.
   */
  function ChannelMax(s: seq<int>, ignore: int): (r: int)
    ensures r >= 0
    ensures forall i :: 0 <= i < |s| && s[i] != ignore ==> s[i] <= r
    ensures r == 0 || exists i :: 0 <= i < |s| && s[i] != ignore && s[i] == r
  {
    if |s| == 0 then 0
    else
      var m := ChannelMax(s[..|s| - 1], ignore);
      var v := s[|s| - 1];
      if v != ignore && v > m then v else m
  }

  /** The id search as the code is written: bytes compared as signed `char`s. */
  function MaxIdAsWritten(plane: seq<byte>, ignore: int): int
  {
    ChannelMax(Signed(plane), ignore)
  }

  /** The id search as evidently intended: bytes compared as unsigned ids, like the binarisation. */
  function MaxId(plane: seq<byte>, ignore: int): int
  {
    ChannelMax(plane, ignore)
  }

  /** The maximum is 0 exactly when no non-ignored value is positive. */
  lemma ChannelMaxZero(s: seq<int>, ignore: int)
    ensures ChannelMax(s, ignore) == 0 <==> forall i :: 0 <= i < |s| && s[i] != ignore ==> s[i] <= 0
  {
  }

  /**
   * As written, the search never returns an id above 127: ids 128..255 of
   * the label plane can never be selected.
   */
  lemma AsWrittenBelow128(plane: seq<byte>, ignore: int)
    ensures 0 <= MaxIdAsWritten(plane, ignore) <= 127
  {
  }

  /** A plane whose only instance has id 200: the code as written finds no instance at all. */
  lemma AsWrittenMissesHighIds()
    ensures MaxIdAsWritten([200], 255) == 0
    ensures MaxId([200], 255) == 200
  {
    var p: seq<byte> := [200];
    assert Signed(p) == [-56];
    assert Signed(p)[..0] == [];
    assert p[..0] == [];
  }

  /** The corrected search bounds every non-ignored id and returns one of them (or 0). */
  lemma MaxIdIsLargestId(plane: seq<byte>, ignore: int)
    ensures 0 <= MaxId(plane, ignore) <= 255
    ensures forall i :: 0 <= i < |plane| && plane[i] != ignore ==> plane[i] <= MaxId(plane, ignore)
    ensures MaxId(plane, ignore) == 0 || exists i :: 0 <= i < |plane| && plane[i] != ignore && plane[i] == MaxId(plane, ignore)
  {
  }

  /** The two searches agree on planes whose ids are all below 128. */
  lemma {:induction false} AgreeBelow128(plane: seq<byte>, ignore: int)
    requires forall i :: 0 <= i < |plane| ==> plane[i] < 128
    ensures MaxIdAsWritten(plane, ignore) == MaxId(plane, ignore)
  {
    if |plane| > 0 {
      var init := plane[..|plane| - 1];
      assert Signed(plane)[..|plane| - 1] == Signed(init);
      AgreeBelow128(init, ignore);
    } else {
      assert Signed(plane) == [];
    }
  }

  /**
   * The scan of channel 1 (cells `[H * W, 2 * H * W)`) of the label, with
   * ids read as unsigned bytes.
   */
  method ScanMaxId(ids: array<byte>, plane: nat, ignore: int) returns (maxIdx: int)
    requires 2 * plane <= ids.Length
    ensures maxIdx == MaxId(ids[plane..2 * plane], ignore)
  {
    maxIdx := 0;
    var i := 0;
    while i < plane
      invariant 0 <= i <= plane
      invariant maxIdx == MaxId(ids[plane..plane + i], ignore)
    {
      var v := ids[plane + i];
      assert ids[plane..plane + i + 1][..i] == ids[plane..plane + i];
      if v != ignore {
        maxIdx := if maxIdx < v then v else maxIdx;
      }
      i := i + 1;
    }
  }

  /** Every cell becomes 1 where it holds `id` and 0 elsewhere. */
  function Binarized(s: seq<byte>, id: int): seq<byte>
  {
    seq(|s|, i requires 0 <= i < |s| => if s[i] == id then 1 else 0)
  }

  /** The binarised label marks exactly as many cells as held the chosen id. */
  lemma {:induction false} BinarizedCountsId(s: seq<byte>, id: int)
    ensures multiset(Binarized(s, id))[1] == multiset(s)[id]
    ensures multiset(Binarized(s, id))[0] == |s| - multiset(s)[id]
  {
    if |s| > 0 {
      var init := s[..|s| - 1];
      BinarizedCountsId(init, id);
      assert s == init + [s[|s| - 1]];
      assert Binarized(s, id) == Binarized(init, id) + [Binarized(s, id)[|s| - 1]];
    } else {
      assert Binarized(s, id) == [];
    }
  }

  /** Binarising a binarised label for the id 1 leaves it as it is. */
  lemma BinarizedIsBinary(s: seq<byte>, id: int)
    ensures Binarized(Binarized(s, id), 1) == Binarized(s, id)
  {
  }

  /** The binarisation loop over the first `count` cells of the label, in place. */
  method BinarizeInPlace(ids: array<byte>, count: nat, id: int)
    requires count <= ids.Length
    modifies ids
    ensures ids[..count] == Binarized(old(ids[..count]), id)
    ensures ids[count..] == old(ids[count..])
  {
    var i := 0;
    while i < count
      invariant 0 <= i <= count
      invariant forall j :: 0 <= j < i ==> ids[j] == (if old(ids[j]) == id then 1 else 0)
      invariant forall j :: i <= j < ids.Length ==> ids[j] == old(ids[j])
    {
      ids[i] := if ids[i] == id then 1 else 0;
      i := i + 1;
    }
  }
}
