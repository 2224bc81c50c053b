/**
 * The `strategy` entry point: the loop over `options`, the multicall each
 * pool issues, the aggregation into `addressScores`, and the filter by the
 * first option's minimum balance.
 */
module StakedDefiBalance {
  import opened Wrappers
  import opened Pools
  import opened Calls
  import opened Aggregation
  import opened Scoring

  /** What one invocation is given besides `options`: the network, the
      addresses, the snapshot, and the two collaborators it cannot see into
      (the ABI documents and the checksum routine). */
  datatype Invocation = Invocation(
    abis: Abis,
    network: string,
    addresses: seq<string>,
    snapshot: Snapshot,
    canon: Canonicaliser)

  /** The loop over `options` so far: the multicalls issued, and either the
      dictionary or the error that aborted the loop. */
  datatype Run = Run(requests: seq<Request>, totals: Result<map<string, real>, Error>)

  /** The loop over `options`, pool by pool, with `outcomes[i]` the result of
      the multicall for `pools[i]` (`None` when it rejects). The ABI switch of
      a pool comes before its multicall, so an unknown kind issues no request
      and ends the loop. */
  function Process(inv: Invocation, pools: seq<PoolConfig>, outcomes: seq<Option<seq<int>>>): Run
    requires |outcomes| == |pools|
    decreases |pools|
  {
    if |pools| == 0 then Run([], Success(map[]))
    else
      var n := |pools| - 1;
      var prev := Process(inv, pools[..n], outcomes[..n]);
      match prev.totals
      case Failure(_) => prev
      case Success(scores) =>
        match SelectAbi(inv.abis, pools[n].stakingType)
        case Failure(e) => Run(prev.requests, Failure(e))
        case Success(abi) =>
          var request := Request(inv.network, abi, BuildCalls(abi, pools[n], inv.addresses), ChooseBlockTag(inv.snapshot));
          Run(prev.requests + [request],
              Success(PoolResult(scores, inv.canon, inv.addresses, pools[n].decimals, outcomes[n])))
  }

  /** What `strategy` returns: the filtered dictionary, the unknown-kind
      error, or the fault of reading `options[0]` from an empty list. */
  function StrategyResult(inv: Invocation, pools: seq<PoolConfig>, outcomes: seq<Option<seq<int>>>): Result<map<string, real>, Error>
    requires |outcomes| == |pools|
  {
    match Process(inv, pools, outcomes).totals
    case Failure(e) => Failure(e)
    case Success(scores) =>
      if |pools| == 0 then Failure(EmptyOptions)
      else Success(Retain(scores, Threshold(pools[0])))
  }

  /** `strategy`, with the multicalls' outcomes given in advance; it also
      hands back the multicall requests it issued, in order. */
  method Strategy(inv: Invocation, pools: seq<PoolConfig>, outcomes: seq<Option<seq<int>>>)
    returns (result: Result<map<string, real>, Error>, requests: seq<Request>)
    requires |outcomes| == |pools|
    ensures result == StrategyResult(inv, pools, outcomes)
    ensures requests == Process(inv, pools, outcomes).requests
  {
    var scores := new Scores();
    requests := [];
    for i := 0 to |pools|
      invariant Process(inv, pools[..i], outcomes[..i]) == Run(requests, Success(scores.addressScores))
    {
      var blockTag := ChooseBlockTag(inv.snapshot);
      var params := pools[i];
      assert pools[..i + 1][..i] == pools[..i] && outcomes[..i + 1][..i] == outcomes[..i];
      var abi;
      match SelectAbi(inv.abis, params.stakingType) {
        case Failure(e) =>
          ErrorIsFinal(inv, pools, outcomes, i + 1);
          return Failure(e), requests;
        case Success(a) =>
          abi := a;
      }
      var stakingCalls := BuildCalls(abi, params, inv.addresses);
      requests := requests + [Request(inv.network, abi, stakingCalls, blockTag)];
      scores.ApplyPool(inv.canon, inv.addresses, params.decimals, outcomes[i]);
    }
    assert pools[..|pools|] == pools && outcomes[..|pools|] == outcomes;
    if |pools| == 0 {
      return Failure(EmptyOptions), requests;
    }
    var minStakedBalance := Threshold(pools[0]);
    scores.Filter(minStakedBalance);
    result := Success(scores.addressScores);
  }

  /** An error ends the loop: nothing after it is issued or counted. */
  lemma {:induction false} ErrorIsFinal(inv: Invocation, pools: seq<PoolConfig>, outcomes: seq<Option<seq<int>>>, n: nat)
    requires |outcomes| == |pools| && n <= |pools|
    requires Process(inv, pools[..n], outcomes[..n]).totals.Failure?
    ensures Process(inv, pools, outcomes) == Process(inv, pools[..n], outcomes[..n])
    decreases |pools|
  {
    if n < |pools| {
      var m := |pools| - 1;
      assert pools[..m][..n] == pools[..n] && outcomes[..m][..n] == outcomes[..n];
      ErrorIsFinal(inv, pools[..m], outcomes[..m], n);
    } else {
      assert pools[..n] == pools && outcomes[..n] == outcomes;
    }
  }

  /** Every pool names one of the two kinds the switch accepts. */
  predicate AllKindsKnown(pools: seq<PoolConfig>)
  {
    forall i :: 0 <= i < |pools| ==> pools[i].stakingType == "open" || pools[i].stakingType == "standard"
  }

  /** The keys the pools add to the dictionary, all together. */
  function Credited(inv: Invocation, pools: seq<PoolConfig>, outcomes: seq<Option<seq<int>>>): set<string>
    requires |outcomes| == |pools|
    decreases |pools|
  {
    if |pools| == 0 then {}
    else
      var n := |pools| - 1;
      Credited(inv, pools[..n], outcomes[..n]) + Touched(inv.canon, inv.addresses, outcomes[n])
  }

  /** A key's combined balance: the sum of every pool's share for it. */
  function TotalShare(inv: Invocation, pools: seq<PoolConfig>, outcomes: seq<Option<seq<int>>>, k: string): real
    requires |outcomes| == |pools|
    decreases |pools|
  {
    if |pools| == 0 then 0.0
    else
      var n := |pools| - 1;
      TotalShare(inv, pools[..n], outcomes[..n], k) + Share(inv.canon, inv.addresses, pools[n].decimals, outcomes[n], k)
  }

  /** When every kind is known the loop runs to the end: one request per pool,
      in order, each the pool's batch under its kind's ABI at the invocation's
      block tag; the dictionary holds exactly the credited keys, each with the
      sum of the pools' shares. */
  lemma {:induction false} KnownKindsProcessed(inv: Invocation, pools: seq<PoolConfig>, outcomes: seq<Option<seq<int>>>)
    requires |outcomes| == |pools| && AllKindsKnown(pools)
    ensures Process(inv, pools, outcomes).totals.Success?
    ensures Process(inv, pools, outcomes).totals.value.Keys == Credited(inv, pools, outcomes)
    ensures forall k :: Get(Process(inv, pools, outcomes).totals.value, k) == TotalShare(inv, pools, outcomes, k)
    ensures |Process(inv, pools, outcomes).requests| == |pools|
    ensures forall i :: 0 <= i < |pools| ==>
      var abi := SelectAbi(inv.abis, pools[i].stakingType).value;
      Process(inv, pools, outcomes).requests[i] == Request(inv.network, abi, BuildCalls(abi, pools[i], inv.addresses), ChooseBlockTag(inv.snapshot))
    decreases |pools|
  {
    if |pools| > 0 {
      var n := |pools| - 1;
      assert AllKindsKnown(pools[..n]) by {
        forall i | 0 <= i < n ensures pools[..n][i] == pools[i] { }
      }
      KnownKindsProcessed(inv, pools[..n], outcomes[..n]);
      var scores := Process(inv, pools[..n], outcomes[..n]).totals.value;
      PoolTotals(scores, inv.canon, inv.addresses, pools[n].decimals, outcomes[n]);
    }
  }

  /** The first pool with an unknown kind aborts the invocation with that
      kind's error, whatever the pools before it produced; only the pools
      before it issued a multicall. */
  lemma UnknownKindAborts(inv: Invocation, pools: seq<PoolConfig>, outcomes: seq<Option<seq<int>>>, j: nat)
    requires |outcomes| == |pools| && j < |pools|
    requires AllKindsKnown(pools[..j])
    requires pools[j].stakingType != "open" && pools[j].stakingType != "standard"
    ensures StrategyResult(inv, pools, outcomes) == Failure(InvalidStakingType(pools[j].stakingType))
    ensures |Process(inv, pools, outcomes).requests| == j
  {
    KnownKindsProcessed(inv, pools[..j], outcomes[..j]);
    assert pools[..j + 1][..j] == pools[..j] && outcomes[..j + 1][..j] == outcomes[..j];
    ErrorIsFinal(inv, pools, outcomes, j + 1);
  }

  /** With every kind known and at least one pool, the result holds exactly
      the credited keys whose combined balance is not below the first pool's
      scaled minimum, each with its combined balance. */
  lemma FinalScores(inv: Invocation, pools: seq<PoolConfig>, outcomes: seq<Option<seq<int>>>)
    requires |outcomes| == |pools| && |pools| > 0 && AllKindsKnown(pools)
    ensures StrategyResult(inv, pools, outcomes).Success?
    ensures var r := StrategyResult(inv, pools, outcomes).value;
      forall k :: k in r <==> k in Credited(inv, pools, outcomes) && !(TotalShare(inv, pools, outcomes, k) < Threshold(pools[0]))
    ensures var r := StrategyResult(inv, pools, outcomes).value;
      forall k :: k in r ==> r[k] == TotalShare(inv, pools, outcomes, k)
  {
    KnownKindsProcessed(inv, pools, outcomes);
  }

  /** `options[0]` is read after the loop, so an empty list faults there. */
  lemma EmptyOptionsFault(inv: Invocation)
    ensures StrategyResult(inv, [], []) == Failure(EmptyOptions)
  {
  }

  /** Two pool lists that differ only in the minimum balances. */
  predicate SameButMinimums(pools: seq<PoolConfig>, others: seq<PoolConfig>)
  {
    |pools| == |others| &&
    forall i :: 0 <= i < |pools| ==> pools[i].(minStakedBalance := 0) == others[i].(minStakedBalance := 0)
  }

  /** The loop over `options` never reads `minStakedBalance`. */
  lemma {:induction false} ProcessIgnoresMinimums(inv: Invocation, pools: seq<PoolConfig>, others: seq<PoolConfig>, outcomes: seq<Option<seq<int>>>)
    requires |outcomes| == |pools| && SameButMinimums(pools, others)
    ensures Process(inv, pools, outcomes) == Process(inv, others, outcomes)
    decreases |pools|
  {
    if |pools| > 0 {
      var n := |pools| - 1;
      assert SameButMinimums(pools[..n], others[..n]) by {
        forall i | 0 <= i < n
          ensures pools[..n][i].(minStakedBalance := 0) == others[..n][i].(minStakedBalance := 0)
        {
        }
      }
      ProcessIgnoresMinimums(inv, pools[..n], others[..n], outcomes[..n]);
      assert pools[n].(minStakedBalance := 0) == others[n].(minStakedBalance := 0);
    }
  }

  /** The cut-off comes from the first option alone: the other options'
      minimum balances do not change the result. */
  lemma OnlyFirstMinimumCounts(inv: Invocation, pools: seq<PoolConfig>, others: seq<PoolConfig>, outcomes: seq<Option<seq<int>>>)
    requires |outcomes| == |pools| && SameButMinimums(pools, others)
    requires |pools| > 0 && pools[0].minStakedBalance == others[0].minStakedBalance
    ensures StrategyResult(inv, pools, outcomes) == StrategyResult(inv, others, outcomes)
  {
    ProcessIgnoresMinimums(inv, pools, others, outcomes);
    assert pools[0].(minStakedBalance := 0) == others[0].(minStakedBalance := 0);
    assert pools[0] == others[0];
  }

  /** The list without its `j`-th entry. */
  function Without<T>(s: seq<T>, j: nat): (r: seq<T>)
    requires j < |s|
    ensures |r| == |s| - 1
  {
    s[..j] + s[j + 1..]
  }

  /** A pool whose multicall rejected adds no key and no amount. */
  lemma {:induction false} RejectedPoolAddsNothing(inv: Invocation, pools: seq<PoolConfig>, outcomes: seq<Option<seq<int>>>, j: nat)
    requires |outcomes| == |pools| && j < |pools| && outcomes[j].None?
    ensures Credited(inv, Without(pools, j), Without(outcomes, j)) == Credited(inv, pools, outcomes)
    ensures forall k :: TotalShare(inv, Without(pools, j), Without(outcomes, j), k) == TotalShare(inv, pools, outcomes, k)
    decreases |pools|
  {
    var n := |pools| - 1;
    if j == n {
      assert Without(pools, j) == pools[..n] && Without(outcomes, j) == outcomes[..n];
    } else {
      var p := Without(pools, j);
      var o := Without(outcomes, j);
      assert p[..n - 1] == Without(pools[..n], j) && o[..n - 1] == Without(outcomes[..n], j);
      assert p[n - 1] == pools[n] && o[n - 1] == outcomes[n];
      RejectedPoolAddsNothing(inv, pools[..n], outcomes[..n], j);
    }
  }

  /** A rejected multicall is absorbed: the dictionary after the loop is the
      one the other pools alone produce, and the invocation does not fail. */
  lemma RejectedPoolIsSkipped(inv: Invocation, pools: seq<PoolConfig>, outcomes: seq<Option<seq<int>>>, j: nat)
    requires |outcomes| == |pools| && j < |pools| && outcomes[j].None? && AllKindsKnown(pools)
    ensures Process(inv, pools, outcomes).totals.Success?
    ensures Process(inv, pools, outcomes).totals == Process(inv, Without(pools, j), Without(outcomes, j)).totals
  {
    var p := Without(pools, j);
    var o := Without(outcomes, j);
    assert AllKindsKnown(p) by {
      forall i | 0 <= i < |p|
        ensures p[i].stakingType == "open" || p[i].stakingType == "standard"
      {
        assert p[i] == if i < j then pools[i] else pools[i + 1];
      }
    }
    KnownKindsProcessed(inv, pools, outcomes);
    KnownKindsProcessed(inv, p, o);
    RejectedPoolAddsNothing(inv, pools, outcomes, j);
    SameTotalsSameScores(Process(inv, pools, outcomes).totals.value, Process(inv, p, o).totals.value);
  }

  /** A pool queried for one address credits that address's canonical form
      with exactly its scaled stake. */
  lemma SingleAddressShare(canon: Canonicaliser, x: string, k: string, decimals: nat, raw: int)
    requires canon(x) == Some(k)
    ensures Touched(canon, [x], Some([raw])) == {k}
    ensures Share(canon, [x], decimals, Some([raw]), k) == Scaled(raw, decimals)
  {
    var keys := CanonAll(canon, [x]);
    assert keys.Some? && keys.value[0] == k;
    assert keys.value == [k];
    assert LastIndexOf([k], k) == 0;
    assert Count([k], k) == 1;
    assert Times(1, Scaled(raw, decimals)) == Scaled(raw, decimals);
  }

  /** Two pools that give one address `a` and `b` whole tokens leave its
      canonical form with a combined balance of `a + b` (with no minimum):
      5 and 3 tokens at 18 decimals make 8. */
  lemma TwoPoolsAddUp(inv: Invocation, pools: seq<PoolConfig>, x: string, k: string, a: nat, b: nat)
    requires |pools| == 2 && AllKindsKnown(pools) && pools[0].minStakedBalance == 0
    requires inv.addresses == [x] && inv.canon(x) == Some(k)
    ensures var outcomes := [Some([a * Pow10(pools[0].decimals)]), Some([b * Pow10(pools[1].decimals)])];
      StrategyResult(inv, pools, outcomes) == Success(map[k := (a + b) as real])
  {
    var outcomes := [Some([a * Pow10(pools[0].decimals)]), Some([b * Pow10(pools[1].decimals)])];
    FinalScores(inv, pools, outcomes);
    SingleAddressShare(inv.canon, x, k, pools[0].decimals, a * Pow10(pools[0].decimals));
    SingleAddressShare(inv.canon, x, k, pools[1].decimals, b * Pow10(pools[1].decimals));
    ScaledWhole(a, pools[0].decimals);
    ScaledWhole(b, pools[1].decimals);
    ScaledWhole(0, pools[0].decimals);
    assert pools[..1][..0] == [] && outcomes[..1][..0] == [];
    assert outcomes[..1] == [outcomes[0]] && pools[..1] == [pools[0]];
    assert TotalShare(inv, pools[..1], outcomes[..1], k) == a as real;
    assert TotalShare(inv, pools, outcomes, k) == (a + b) as real;
    assert Credited(inv, pools[..1], outcomes[..1]) == {k};
    assert Credited(inv, pools, outcomes) == {k};
    assert 0 * Pow10(pools[0].decimals) == 0;
    assert Threshold(pools[0]) == 0.0;
    var r := StrategyResult(inv, pools, outcomes).value;
    assert k in r && r[k] == (a + b) as real;
    assert r.Keys == {k};
    assert r == map[k := (a + b) as real];
  }
}
