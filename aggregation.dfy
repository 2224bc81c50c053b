/**
 * What one pool does to the `addressScores` dictionary, stated as functions
 * on values: canonicalising the batch's addresses, the `stakesMapped`
 * dictionary (last write wins), the insert-or-add pass, and the threshold
 * filter. The `Scoring.Scores` class performs the same steps in place.
 */
module Aggregation {
  import opened Wrappers
  import opened Pools

  /** The address-checksum routine: a canonical form, or `None` where it throws. */
  type Canonicaliser = string -> Option<string>

  /** A dictionary read with `undefined` (and, after line 79, falsy) taken as 0. */
  function Get(m: map<string, real>, k: string): real
  {
    if k in m then m[k] else 0.0
  }

  /** The canonical form of every address, or `None` if any of them is refused. */
  function CanonAll(canon: Canonicaliser, addresses: seq<string>): (r: Option<seq<string>>)
    ensures r.Some? <==> forall j :: 0 <= j < |addresses| ==> canon(addresses[j]).Some?
    ensures r.Some? ==> |r.value| == |addresses|
    ensures r.Some? ==> forall j :: 0 <= j < |addresses| ==> r.value[j] == canon(addresses[j]).value
    decreases |addresses|
  {
    if |addresses| == 0 then Some([])
    else
      var n := |addresses| - 1;
      match CanonAll(canon, addresses[..n])
      case None => None
      case Some(keys) =>
        match canon(addresses[n])
        case None => None
        case Some(key) => Some(keys + [key])
  }

  /** The last position at which `k` occurs. */
  function LastIndexOf(keys: seq<string>, k: string): (i: nat)
    requires k in keys
    ensures i < |keys| && keys[i] == k
    ensures forall j :: i < j < |keys| ==> keys[j] != k
    decreases |keys|
  {
    var n := |keys| - 1;
    if keys[n] == k then n
    else
      assert k in keys[..n] by { var j :| 0 <= j < |keys| && keys[j] == k; assert keys[..n][j] == k; }
      LastIndexOf(keys[..n], k)
  }

  /** `stakesMapped`: written position by position, so a later position
      overwrites an earlier one with the same key. */
  function StakesMapped(keys: seq<string>, stakes: seq<int>): (m: map<string, int>)
    requires |keys| <= |stakes|
    ensures forall k :: k in m <==> k in keys
    decreases |keys|
  {
    if |keys| == 0 then map[]
    else
      var n := |keys| - 1;
      assert keys == keys[..n] + [keys[n]];
      StakesMapped(keys[..n], stakes)[keys[n] := stakes[n]]
  }

  /** Every key of `stakesMapped` holds the stake of the last position with that key. */
  lemma {:induction false} LastPositionWins(keys: seq<string>, stakes: seq<int>, k: string)
    requires |keys| <= |stakes| && k in keys
    ensures StakesMapped(keys, stakes)[k] == stakes[LastIndexOf(keys, k)]
    decreases |keys|
  {
    var n := |keys| - 1;
    if keys[n] != k {
      assert k in keys[..n] by { var j :| 0 <= j < |keys| && keys[j] == k; assert keys[..n][j] == k; }
      LastPositionWins(keys[..n], stakes, k);
    }
  }

  /** The pass over the addresses: for each position in order, initialise an
      absent total to 0 and add the scaled stake of that position's key. */
  function AddAll(scores: map<string, real>, keys: seq<string>, mapped: map<string, int>, decimals: nat): map<string, real>
    requires forall k :: k in keys ==> k in mapped
    decreases |keys|
  {
    if |keys| == 0 then scores
    else
      var n := |keys| - 1;
      var prev := AddAll(scores, keys[..n], mapped, decimals);
      var key := keys[n];
      prev[key := Get(prev, key) + Scaled(mapped[key], decimals)]
  }

  /** How many positions hold `k`. */
  function Count(keys: seq<string>, k: string): (c: nat)
    ensures c > 0 <==> k in keys
    decreases |keys|
  {
    if |keys| == 0 then 0
    else
      var n := |keys| - 1;
      assert keys == keys[..n] + [keys[n]];
      Count(keys[..n], k) + (if keys[n] == k then 1 else 0)
  }

  lemma UpdateTwice(m: map<string, real>, k: string, a: real, b: real)
    ensures m[k := a][k := b] == m[k := b]
  {
  }

  /** One more position of the `forEach`: insert-or-add for its key. */
  lemma AddAllSnoc(scores: map<string, real>, keys: seq<string>, key: string, mapped: map<string, int>, decimals: nat)
    requires forall k :: k in keys + [key] ==> k in mapped
    ensures var prev := AddAll(scores, keys, mapped, decimals);
      AddAll(scores, keys + [key], mapped, decimals) == prev[key := Get(prev, key) + Scaled(mapped[key], decimals)]
  {
    assert (keys + [key])[..|keys|] == keys;
  }

  /** Every key of the batch is present afterwards, zero balances included,
      and no other key appears. */
  lemma {:induction false} AddAllKeys(scores: map<string, real>, keys: seq<string>, mapped: map<string, int>, decimals: nat)
    requires forall k :: k in keys ==> k in mapped
    ensures AddAll(scores, keys, mapped, decimals).Keys == scores.Keys + set k | k in keys
    decreases |keys|
  {
    if |keys| > 0 {
      var n := |keys| - 1;
      assert keys == keys[..n] + [keys[n]];
      AddAllKeys(scores, keys[..n], mapped, decimals);
    }
  }

  /** A key of the batch grows by its stake once per occurrence; any other
      key keeps its total. */
  lemma {:induction false} AddAllAt(scores: map<string, real>, keys: seq<string>, mapped: map<string, int>, decimals: nat, k: string)
    requires forall k :: k in keys ==> k in mapped
    ensures k in keys ==>
      Get(AddAll(scores, keys, mapped, decimals), k) == Get(scores, k) + Times(Count(keys, k), Scaled(mapped[k], decimals))
    ensures k !in keys ==> Get(AddAll(scores, keys, mapped, decimals), k) == Get(scores, k)
    decreases |keys|
  {
    if |keys| > 0 {
      var n := |keys| - 1;
      var prefix := keys[..n];
      assert keys == prefix + [keys[n]];
      AddAllAt(scores, prefix, mapped, decimals, k);
      var prev := AddAll(scores, prefix, mapped, decimals);
      var key := keys[n];
      assert AddAll(scores, keys, mapped, decimals) == prev[key := Get(prev, key) + Scaled(mapped[key], decimals)];
      if k == key {
        assert Count(keys, k) == Count(prefix, k) + 1;
      } else {
        assert Count(keys, k) == Count(prefix, k);
      }
    }
  }

  /** `s` added `c` times. */
  function Times(c: nat, s: real): real
  {
    if c == 0 then 0.0 else Times(c - 1, s) + s
  }

  lemma {:induction false} TimesIsProduct(c: nat, s: real)
    ensures Times(c, s) == (c as real) * s
  {
    if c > 0 {
      TimesIsProduct(c - 1, s);
    }
  }

  /** Whether a pool's batch reaches the dictionary: the multicall resolved,
      every address canonicalised, and there is a result for every address. */
  predicate Lands(canon: Canonicaliser, addresses: seq<string>, outcome: Option<seq<int>>)
  {
    outcome.Some? && CanonAll(canon, addresses).Some? && |addresses| <= |outcome.value|
  }

  /** The keys a pool adds to the dictionary. */
  function Touched(canon: Canonicaliser, addresses: seq<string>, outcome: Option<seq<int>>): set<string>
  {
    if Lands(canon, addresses, outcome) then set k | k in CanonAll(canon, addresses).value else {}
  }

  /** A pool's contribution to key `k`, stated independently of the two
      dictionaries: the number of positions whose address canonicalises to
      `k`, times the scaled stake at the last such position. */
  function Share(canon: Canonicaliser, addresses: seq<string>, decimals: nat, outcome: Option<seq<int>>, k: string): real
  {
    if Lands(canon, addresses, outcome) && k in CanonAll(canon, addresses).value then
      var keys := CanonAll(canon, addresses).value;
      Times(Count(keys, k), Scaled(outcome.value[LastIndexOf(keys, k)], decimals))
    else 0.0
  }

  /** One iteration of the loop over `options`, after the ABI switch: a
      rejected multicall, or a throw inside the `try`, leaves the dictionary as it was. */
  function PoolResult(scores: map<string, real>, canon: Canonicaliser, addresses: seq<string>,
                      decimals: nat, outcome: Option<seq<int>>): map<string, real>
  {
    match outcome
    case None => scores
    case Some(stakes) =>
      match CanonAll(canon, addresses)
      case None => scores
      case Some(keys) =>
        if |stakes| < |keys| then scores
        else AddAll(scores, keys, StakesMapped(keys, stakes), decimals)
  }

  /** What one pool does to the dictionary, in terms of `Touched` and `Share`. */
  lemma PoolTotals(scores: map<string, real>, canon: Canonicaliser, addresses: seq<string>,
                   decimals: nat, outcome: Option<seq<int>>)
    ensures PoolResult(scores, canon, addresses, decimals, outcome).Keys == scores.Keys + Touched(canon, addresses, outcome)
    ensures forall k :: Get(PoolResult(scores, canon, addresses, decimals, outcome), k)
                        == Get(scores, k) + Share(canon, addresses, decimals, outcome, k)
  {
    if Lands(canon, addresses, outcome) {
      var keys := CanonAll(canon, addresses).value;
      var stakes := outcome.value;
      var mapped := StakesMapped(keys, stakes);
      AddAllKeys(scores, keys, mapped, decimals);
      forall k
        ensures Get(PoolResult(scores, canon, addresses, decimals, outcome), k)
                == Get(scores, k) + Share(canon, addresses, decimals, outcome, k)
      {
        AddAllAt(scores, keys, mapped, decimals, k);
        if k in keys {
          LastPositionWins(keys, stakes, k);
        }
      }
    }
  }

  /** A pool whose multicall rejected leaves every total, and every absence, as it was. */
  lemma FailedPoolChangesNothing(scores: map<string, real>, canon: Canonicaliser, addresses: seq<string>, decimals: nat)
    ensures PoolResult(scores, canon, addresses, decimals, None) == scores
    ensures Touched(canon, addresses, None) == {}
  {
  }

  /** The order in which two pools are processed does not change the totals. */
  lemma PoolsCommute(scores: map<string, real>, canon: Canonicaliser, addresses: seq<string>,
                     d1: nat, o1: Option<seq<int>>, d2: nat, o2: Option<seq<int>>)
    ensures PoolResult(PoolResult(scores, canon, addresses, d1, o1), canon, addresses, d2, o2)
         == PoolResult(PoolResult(scores, canon, addresses, d2, o2), canon, addresses, d1, o1)
  {
    var a1 := PoolResult(scores, canon, addresses, d1, o1);
    var b1 := PoolResult(scores, canon, addresses, d2, o2);
    var a := PoolResult(a1, canon, addresses, d2, o2);
    var b := PoolResult(b1, canon, addresses, d1, o1);
    PoolTotals(scores, canon, addresses, d1, o1);
    PoolTotals(scores, canon, addresses, d2, o2);
    PoolTotals(a1, canon, addresses, d2, o2);
    PoolTotals(b1, canon, addresses, d1, o1);
    assert a.Keys == b.Keys;
    forall k | k in a
      ensures a[k] == b[k]
    {
      assert Get(a, k) == Get(b, k);
    }
  }

  /** Two dictionaries with the same keys and the same totals are the same. */
  lemma SameTotalsSameScores(a: map<string, real>, b: map<string, real>)
    requires a.Keys == b.Keys
    requires forall k :: Get(a, k) == Get(b, k)
    ensures a == b
  {
    forall k | k in a
      ensures a[k] == b[k]
    {
      assert Get(a, k) == Get(b, k);
    }
  }

  /** Two addresses with the same canonical form share one entry, and because
      `stakesMapped` keeps the later position's stake, that entry receives the
      later stake once for each of the two positions. */
  lemma SameCanonicalFormMerges(canon: Canonicaliser, a: string, b: string, k: string, x: int, y: int, decimals: nat)
    requires canon(a) == Some(k) && canon(b) == Some(k)
    ensures PoolResult(map[], canon, [a, b], decimals, Some([x, y])) == map[k := Scaled(y, decimals) + Scaled(y, decimals)]
  {
    var addresses := [a, b];
    assert addresses[..1] == [a];
    var keys := CanonAll(canon, addresses);
    assert addresses[0] == a && addresses[1] == b;
    assert keys.Some? && keys.value[0] == k && keys.value[1] == k;
    assert keys.value == [k, k];
    assert LastIndexOf([k, k], k) == 1;
    assert [k, k][..1] == [k];
    assert Count([k, k], k) == 2;
    PoolTotals(map[], canon, addresses, decimals, Some([x, y]));
    var r := PoolResult(map[], canon, addresses, decimals, Some([x, y]));
    var expected := map[k := Scaled(y, decimals) + Scaled(y, decimals)];
    forall key
      ensures Get(r, key) == Get(expected, key)
    {
      assert Get(r, key) == Share(canon, addresses, decimals, Some([x, y]), key);
      assert Lands(canon, addresses, Some([x, y]));
      if key == k {
        assert Share(canon, addresses, decimals, Some([x, y]), key) == Times(2, Scaled(y, decimals));
        assert Times(1, Scaled(y, decimals)) == Scaled(y, decimals);
        assert Get(expected, key) == Scaled(y, decimals) + Scaled(y, decimals);
      } else {
        assert key !in keys.value;
      }
    }
    SameTotalsSameScores(r, expected);
  }

  /** The filter: a key stays exactly when its total is not below the threshold,
      and a total that stays is not altered. */
  function Retain(scores: map<string, real>, threshold: real): (r: map<string, real>)
    ensures forall k :: k in r <==> k in scores && !(scores[k] < threshold)
    ensures forall k :: k in r ==> r[k] == scores[k]
  {
    map k | k in scores && !(scores[k] < threshold) :: scores[k]
  }

  /** Filtering twice at the same threshold removes nothing more. */
  lemma RetainIdempotent(scores: map<string, real>, threshold: real)
    ensures Retain(Retain(scores, threshold), threshold) == Retain(scores, threshold)
  {
  }
}
