/**
 * The `addressScores` dictionary and the two passes that change it in place:
 * one pool's aggregation (the body of the `try`) and the final threshold filter.
 */
module Scoring {
  import opened Wrappers
  import opened Pools
  import opened Aggregation

  class Scores {
    /** Canonical address -> combined staked balance so far. */
    var addressScores: map<string, real>

    constructor ()
      ensures addressScores == map[]
    {
      addressScores := map[];
    }

    /** One pool, given the multicall's outcome (`None` when it rejected, else
        the first return value of each call). `stakesMapped` is filled first,
        so a throw there (an address `getAddress` refuses, a missing result)
        reaches the `catch` before the dictionary is touched. */
    method ApplyPool(canon: Canonicaliser, addresses: seq<string>, decimals: nat, outcome: Option<seq<int>>)
      modifies this
      ensures addressScores == PoolResult(old(addressScores), canon, addresses, decimals, outcome)
    {
      if outcome.None? {
        return;
      }
      var stakes := outcome.value;
      var stakesMapped: map<string, int> := map[];
      ghost var keys: seq<string> := [];
      for i := 0 to |addresses|
        invariant CanonAll(canon, addresses[..i]) == Some(keys)
        invariant i <= |stakes|
        invariant stakesMapped == StakesMapped(keys, stakes)
        invariant addressScores == old(addressScores)
      {
        var key := canon(addresses[i]);
        if key.None? || i >= |stakes| {
          return;
        }
        assert addresses[..i + 1] == addresses[..i] + [addresses[i]];
        assert (keys + [key.value])[..i] == keys;
        stakesMapped := stakesMapped[key.value := stakes[i]];
        keys := keys + [key.value];
      }
      assert addresses[..|addresses|] == addresses;

      AddStakes(canon, addresses, keys, stakesMapped, decimals);
    }

    /** The pass over one pool's addresses: insert-or-add, position by position. */
    method AddStakes(canon: Canonicaliser, addresses: seq<string>, ghost keys: seq<string>,
                     stakesMapped: map<string, int>, decimals: nat)
      requires |keys| == |addresses|
      requires forall j :: 0 <= j < |addresses| ==> canon(addresses[j]) == Some(keys[j])
      requires forall k :: k in keys ==> k in stakesMapped
      modifies this
      ensures addressScores == AddAll(old(addressScores), keys, stakesMapped, decimals)
    {
      ghost var start := addressScores;
      for j := 0 to |addresses|
        invariant addressScores == AddAll(start, keys[..j], stakesMapped, decimals)
      {
        var normalizedAddress := canon(addresses[j]).value;
        assert normalizedAddress == keys[j];
        var formattedStakedBalance := Scaled(stakesMapped[normalizedAddress], decimals);
        ghost var before := addressScores;
        ghost var current := Get(before, normalizedAddress);
        if normalizedAddress !in addressScores || addressScores[normalizedAddress] == 0.0 {
          addressScores := addressScores[normalizedAddress := 0.0];
        }
        assert addressScores == before[normalizedAddress := current];
        addressScores := addressScores[normalizedAddress := addressScores[normalizedAddress] + formattedStakedBalance];
        UpdateTwice(before, normalizedAddress, current, current + formattedStakedBalance);
        assert keys[..j + 1] == keys[..j] + [normalizedAddress];
        AddAllSnoc(start, keys[..j], normalizedAddress, stakesMapped, decimals);
      }
      assert keys[..|addresses|] == keys;
    }

    /** The min-balance filter: every entry whose total is below `threshold`
        is deleted, visiting the keys present when it starts. */
    method Filter(threshold: real)
      modifies this
      ensures addressScores == Retain(old(addressScores), threshold)
    {
      var pending := addressScores.Keys;
      while pending != {}
        invariant pending <= old(addressScores).Keys
        invariant addressScores.Keys <= old(addressScores).Keys
        invariant forall k :: k in addressScores ==> addressScores[k] == old(addressScores)[k]
        invariant forall k :: k in old(addressScores) ==>
          (k in addressScores <==> k in pending || !(old(addressScores)[k] < threshold))
        decreases pending
      {
        var address :| address in pending;
        if addressScores[address] < threshold {
          addressScores := addressScores - {address};
        }
        pending := pending - {address};
      }
    }
  }
}
