/** The discriminators of a BFD speaker's sessions: random, never zero, and never two alike. */
module BfdDiscriminators {
  import opened BfdSession

  /** Two random draws make one candidate. */
  function Candidate(high: nat, low: nat): (id: u32)
  {
    high % 0x1_0000 * 0x1_0000 + low % 0x1_0000
  }

  /** Every identifier can come up: none is out of reach of the draws. */
  lemma EveryCandidateIsPossible(id: u32)
    ensures Candidate(id / 0x1_0000, id % 0x1_0000) == id
  {
  }

  datatype Found = Found(id: u32, draws: nat) | OutOfDraws

  predicate Free(id: u32, taken: seq<u32>) {
    id != 0 && id !in taken
  }

  /** Draws until a candidate is free; the draws are given, as many as the generator will make. */
  method Generate(taken: seq<u32>, draws: seq<(nat, nat)>) returns (r: Found)
    ensures r.Found? ==>
              && 0 < r.draws <= |draws| && Free(r.id, taken)
              && r.id == Candidate(draws[r.draws - 1].0, draws[r.draws - 1].1)
              && forall k :: 0 <= k < r.draws - 1 ==> !Free(Candidate(draws[k].0, draws[k].1), taken)
    ensures r.OutOfDraws? ==> forall k :: 0 <= k < |draws| ==> !Free(Candidate(draws[k].0, draws[k].1), taken)
  {
    var i := 0;
    while i < |draws|
      invariant 0 <= i <= |draws|
      invariant forall k :: 0 <= k < i ==> !Free(Candidate(draws[k].0, draws[k].1), taken)
    {
      var id := Candidate(draws[i].0, draws[i].1);
      i := i + 1;
      if id != 0 && id !in taken {
        return Found(id, i);
      }
    }
    return OutOfDraws;
  }

  /** The table of sessions by discriminator. */
  class Registry {
    var ids: seq<u32>

    ghost predicate Valid()
      reads this
    {
      && 0 !in ids
      && forall i, j :: 0 <= i < j < |ids| ==> ids[i] != ids[j]
    }

    constructor ()
      ensures Valid() && ids == []
    {
      ids := [];
    }

    /** A packet that names one of our discriminators finds exactly the session that has it. */
    method Find(id: u32) returns (i: int)
      requires Valid()
      ensures -1 <= i < |ids|
      ensures i >= 0 ==> ids[i] == id && forall j :: 0 <= j < |ids| && ids[j] == id ==> j == i
      ensures i < 0 ==> id !in ids
    {
      i := 0;
      while i < |ids|
        invariant 0 <= i <= |ids| && id !in ids[..i]
      {
        if ids[i] == id {
          return;
        }
        i := i + 1;
      }
      i := -1;
    }

    method Register(draws: seq<(nat, nat)>) returns (r: Found)
      requires Valid()
      modifies this
      ensures Valid()
      ensures r.Found? ==> r.id != 0 && r.id !in old(ids) && ids == old(ids) + [r.id]
      ensures r.OutOfDraws? ==> ids == old(ids)
    {
      r := Generate(ids, draws);
      if r.Found? {
        ids := ids + [r.id];
      }
    }

    method Delete(i: nat)
      requires Valid() && i < |ids|
      modifies this
      ensures Valid() && |ids| == |old(ids)| - 1
      ensures forall id :: id in ids <==> id in old(ids) && id != old(ids)[i]
    {
      var gone := ids[i];
      var left := ids[..i] + ids[i + 1..];
      forall id | id in ids && id != gone
        ensures id in left
      {
        var j :| 0 <= j < |ids| && ids[j] == id;
        assert left[if j < i then j else j - 1] == id;
      }
      assert forall k :: 0 <= k < |left| ==> left[k] == ids[if k < i then k else k + 1];
      ids := left;
    }
  }
}
