/**
 * Pool configurations, the two staking kinds, the read-interface (ABI)
 * descriptor each kind selects, and the decimal scaling of raw balances.
 */
module Pools {
  import opened Wrappers

  /** One entry of the strategy's `options` list. */
  datatype PoolConfig = PoolConfig(
    stakingPoolContractAddress: string,
    stakingType: string,            // compared against "open" / "standard"
    tokenContractAddress: string,
    decimals: nat,
    minStakedBalance: int)          // the raw integer, before scaling by `decimals`

  /** The two staking kinds the switch recognises. */
  datatype StakingType = Open | Standard

  /** A read-interface descriptor, reduced to what the strategy uses: the
      function name and the names of its inputs, in order. */
  datatype Abi = Abi(name: string, inputs: seq<string>)

  /** The first descriptor of each of the two ABI documents. */
  datatype Abis = Abis(open: Abi, standard: Abi)

  /** The only error the strategy lets escape, and the fault on an empty `options`. */
  datatype Error = InvalidStakingType(kind: string) | EmptyOptions

  /** The switch on a pool's staking type: exactly two strings are kinds. */
  function ParseStakingType(kind: string): (t: Option<StakingType>)
    ensures t == Some(Open) <==> kind == "open"
    ensures t == Some(Standard) <==> kind == "standard"
    ensures t.None? <==> kind != "open" && kind != "standard"
  {
    if kind == "open" then Some(Open)
    else if kind == "standard" then Some(Standard)
    else None
  }

  function AbiFor(abis: Abis, t: StakingType): Abi
  {
    match t
    case Open => abis.open
    case Standard => abis.standard
  }

  /** ABI selection: the open descriptor for "open", the standard one for
      "standard", and the invalid-kind error (a throw) for anything else. */
  function SelectAbi(abis: Abis, kind: string): (r: Result<Abi, Error>)
    ensures kind == "open" ==> r == Success(abis.open)
    ensures kind == "standard" ==> r == Success(abis.standard)
    ensures r.Failure? <==> kind != "open" && kind != "standard"
    ensures r.Failure? ==> r.error == InvalidStakingType(kind)
  {
    match ParseStakingType(kind)
    case Some(t) => Success(AbiFor(abis, t))
    case None => Failure(InvalidStakingType(kind))
  }

  function Pow10(n: nat): (p: nat)
    ensures p >= 1
  {
    if n == 0 then 1 else 10 * Pow10(n - 1)
  }

  /** A raw integer balance divided by 10^decimals, in exact arithmetic. */
  function Scaled(raw: int, decimals: nat): real
  {
    if decimals == 0 then raw as real else Scaled(raw, decimals - 1) / 10.0
  }

  /** Scaling loses nothing: multiplying back by 10^decimals gives the raw
      value, and a non-negative balance stays non-negative. */
  lemma {:induction false} ScaledInverse(raw: int, decimals: nat)
    ensures Scaled(raw, decimals) * (Pow10(decimals) as real) == raw as real
    ensures raw >= 0 ==> Scaled(raw, decimals) >= 0.0
  {
    if decimals > 0 {
      ScaledInverse(raw, decimals - 1);
      var x := Scaled(raw, decimals - 1);
      var p := Pow10(decimals - 1) as real;
      assert Pow10(decimals) as real == 10.0 * p;
      assert (x / 10.0) * (10.0 * p) == x * p;
    }
  }

  /** A whole number of tokens, written with `decimals` digits, scales back to that number. */
  lemma {:induction false} ScaledWhole(tokens: int, decimals: nat)
    ensures Scaled(tokens * Pow10(decimals), decimals) == tokens as real
    decreases decimals
  {
    if decimals > 0 {
      ScaledWhole(tokens * 10, decimals - 1);
      assert tokens * Pow10(decimals) == (tokens * 10) * Pow10(decimals - 1);
    }
  }

  /** The cut-off a pool configuration's `minStakedBalance` stands for. */
  function Threshold(pool: PoolConfig): real
  {
    Scaled(pool.minStakedBalance, pool.decimals)
  }
}
