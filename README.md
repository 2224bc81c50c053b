# staked-defi-balance, modelled in Dafny

The `staked-defi-balance` strategy scores a list of account addresses by
what they have staked in one or more staking pools. For every entry of
`options` (a pool configuration), it does the following:

- picks the read interface (ABI) for the pool's `stakingType`;
- builds one multicall batch with one call per address;
- reads each address's stake;
- adds `stake / 10^decimals` to that address's running total in the
  `addressScores` dictionary, which is keyed by checksummed address.

A pool whose multicall rejects is skipped. An unknown `stakingType` aborts
the whole invocation. After the last pool, every address whose total is
below the first option's `minStakedBalance / 10^decimals` is deleted.

The model has six modules, one per file:

- `Wrappers` (`wrappers.dfy`): `Option` and `Result`.
- `Pools` (`pools.dfy`): the pool configuration and the two staking
  kinds. It also has the ABI switch and the exact decimal scaling.
- `Calls` (`calls.dfy`): the block-tag choice and the argument binding.
  It also builds `stakingCalls` and the multicall request record.
- `Aggregation` (`aggregation.dfy`): what one pool does to the
  dictionary, written as functions on values. It covers `getAddress` over
  the batch, `stakesMapped`, the insert-or-add pass and the filter. The
  lemmas give the result in terms of each pool's share of each key.
- `Scoring` (`scoring.dfy`): the `Scores` class. It holds
  `addressScores` and changes it in place. `ApplyPool` is the body of the
  `try`, `AddStakes` is its `forEach`, and `Filter` is the final deletion
  loop. Each method is proved equal to the matching function in
  `Aggregation`.
- `StakedDefiBalance` (`strategy.dfy`): the `strategy` entry point and
  the function `Process` that specifies its loop over `options`. The
  lemmas cover the properties of a whole invocation.

The parts the model cannot see are passed in as parameters:

- The network read (`multicall`) is the sequence `outcomes`. It has one
  `Option<seq<int>>` per pool: `None` means the call rejected, and
  `Some(stakes)` holds the first return value of each call. `Strategy`
  returns the requests it would have issued (network, ABI, batch, block
  tag) so that they can be checked against `BuildCalls` and
  `ChooseBlockTag`.
- `getAddress` is the parameter `canon: string -> Option<string>`. It is
  deterministic, and `None` stands for a throw.
- The two ABI documents are the parameter `abis`.

## Model

| member | source | states |
|---|---|---|
| `Pools.ParseStakingType` | src/strategies/staked-defi-balance/index.ts:32-43 | exactly "open" and "standard" are staking kinds, each mapped to its own kind; every other string is none |
| `Pools.SelectAbi` | src/strategies/staked-defi-balance/index.ts:32-43 | "open" selects the open-staking descriptor, "standard" the standard one, and any other kind fails with `InvalidStakingType(kind)` |
| `Pools.ScaledInverse` | src/strategies/staked-defi-balance/index.ts:74-76 | the scaled balance times 10^decimals is the raw balance again, and a non-negative raw balance scales to a non-negative number |
| `Pools.ScaledWhole` | src/strategies/staked-defi-balance/index.ts:74-76 | `tokens * 10^decimals` scales back to exactly `tokens` |
| `Calls.ChooseBlockTag` | src/strategies/staked-defi-balance/index.ts:26-27 | the block tag is the snapshot's height when the snapshot is a number, and `latest` otherwise |
| `Calls.BindArgs` | src/strategies/staked-defi-balance/index.ts:47-53 | one argument per ABI input, in order: `id` gets the token address, `staker` or `account` gets the holder, and any other input is undefined |
| `Calls.BuildCalls` | src/strategies/staked-defi-balance/index.ts:46-55 | one call per address, in address order, each `[pool address, abi.name, arguments bound for that address]` |
| `Calls.HoldersRoundTrip` | src/strategies/staked-defi-balance/index.ts:46-55 | when the ABI has a holder input, reading that argument back out of the batch gives the address list in the same order (the positional alignment the results depend on) |
| `Aggregation.CanonAll` | src/strategies/staked-defi-balance/index.ts:67-69 | the batch canonicalises only if every address does, and then key `i` is the canonical form of address `i` |
| `Aggregation.StakesMapped` | src/strategies/staked-defi-balance/index.ts:66-69 | `stakesMapped` has exactly the batch's canonical keys |
| `Aggregation.LastPositionWins` | src/strategies/staked-defi-balance/index.ts:66-69 | each key of `stakesMapped` holds the stake of the last position with that canonical form |
| `Aggregation.AddAllKeys` | src/strategies/staked-defi-balance/index.ts:71-84 | after the insert-or-add pass the keys are the old keys plus every canonical key of the batch, zero balances included |
| `Aggregation.AddAllAt` | src/strategies/staked-defi-balance/index.ts:71-84 | a batch key's total grows by its mapped stake once per occurrence (an absent total counts as 0), and every other key keeps its total |
| `Aggregation.TimesIsProduct` | src/strategies/staked-defi-balance/index.ts:71-84 | adding a stake once per occurrence adds occurrences × stake |
| `Aggregation.PoolTotals` | src/strategies/staked-defi-balance/index.ts:57-87 | one pool adds exactly its touched keys, and every key's total grows by the pool's share: occurrences × the scaled stake of the key's last position, or nothing if the pool did not land |
| `Aggregation.FailedPoolChangesNothing` | src/strategies/staked-defi-balance/index.ts:57-87 | a rejected multicall leaves the dictionary exactly as it was and adds no key |
| `Aggregation.PoolsCommute` | src/strategies/staked-defi-balance/index.ts:24-88 | processing two pools in either order gives the same dictionary (exact arithmetic) |
| `Aggregation.SameCanonicalFormMerges` | src/strategies/staked-defi-balance/index.ts:66-84 | two addresses with the same canonical form give one entry, and that entry receives the later position's stake twice |
| `Aggregation.Retain` | src/strategies/staked-defi-balance/index.ts:94-98 | a key survives the filter exactly when its total is not below the threshold (a total equal to it stays), and surviving totals are unchanged |
| `Aggregation.RetainIdempotent` | src/strategies/staked-defi-balance/index.ts:94-98 | filtering again at the same threshold removes nothing more |
| `Scoring.Scores.constructor` | src/strategies/staked-defi-balance/index.ts:22 | `addressScores` starts empty |
| `Scoring.Scores.ApplyPool` | src/strategies/staked-defi-balance/index.ts:57-87 | the dictionary after one pool's `try` (or `catch`) equals `PoolResult` of the old dictionary |
| `Scoring.Scores.AddStakes` | src/strategies/staked-defi-balance/index.ts:71-84 | the in-place `forEach` with its falsy-reset and `+=` gives the dictionary `AddAll` describes |
| `Scoring.Scores.Filter` | src/strategies/staked-defi-balance/index.ts:94-98 | deleting in place every entry below the threshold leaves `Retain` of the old dictionary |
| `StakedDefiBalance.Strategy` | src/strategies/staked-defi-balance/index.ts:14-101 | the method's result and issued requests are those of the `Process`/`StrategyResult` specification |
| `StakedDefiBalance.ErrorIsFinal` | src/strategies/staked-defi-balance/index.ts:32-43 | once the loop has failed, later pools issue no request and change nothing |
| `StakedDefiBalance.KnownKindsProcessed` | src/strategies/staked-defi-balance/index.ts:24-88 | with every kind known: one request per pool, in order, made of the kind's ABI, `BuildCalls` and the invocation's block tag; the dictionary holds exactly the credited keys, each with the sum of the pools' shares |
| `StakedDefiBalance.UnknownKindAborts` | src/strategies/staked-defi-balance/index.ts:32-43 | the first pool with an unknown kind makes the invocation fail with that kind's error, whatever earlier pools produced, and only the pools before it issued a request |
| `StakedDefiBalance.FinalScores` | src/strategies/staked-defi-balance/index.ts:90-100 | the result holds exactly the credited keys whose combined balance is not below the first pool's scaled minimum, each with its combined balance |
| `StakedDefiBalance.EmptyOptionsFault` | src/strategies/staked-defi-balance/index.ts:91-93 | an empty `options` list fails when `options[0]` is read |
| `StakedDefiBalance.ProcessIgnoresMinimums` | src/strategies/staked-defi-balance/index.ts:24-88 | the loop over `options` does not depend on any `minStakedBalance` |
| `StakedDefiBalance.OnlyFirstMinimumCounts` | src/strategies/staked-defi-balance/index.ts:91-93 | options that differ only in the minimum balances of entries after the first give the same result |
| `StakedDefiBalance.RejectedPoolAddsNothing` | src/strategies/staked-defi-balance/index.ts:85-87 | removing a rejected pool from the list changes neither the credited keys nor any combined balance |
| `StakedDefiBalance.RejectedPoolIsSkipped` | src/strategies/staked-defi-balance/index.ts:57-87 | with a rejected multicall the loop still succeeds, and its dictionary is the one the other pools alone produce |
| `StakedDefiBalance.SingleAddressShare` | src/strategies/staked-defi-balance/index.ts:71-84 | a one-address batch credits the address's canonical form with exactly its scaled stake |
| `StakedDefiBalance.TwoPoolsAddUp` | src/strategies/staked-defi-balance/index.ts:24-88 | two pools giving one address `a` and `b` whole tokens leave its canonical form at `a + b` (for example 5 and 3 tokens at 18 decimals give 8) |

## Behaviour worth noting

- Results go through `stakesMapped`, which is keyed by canonical address
  (src/strategies/staked-defi-balance/index.ts:66-69). Every occurrence of
  a canonical form therefore adds the stake of the last position with that
  form. `LastPositionWins` and `SameCanonicalFormMerges` state this.
- An empty `options` list faults when `options[0]` is read
  (src/strategies/staked-defi-balance/index.ts:92). The model returns
  `Failure(EmptyOptions)` for it.

## Left out

- Network I/O is not modelled. This covers `multicall`, `getProvider`, the
  conversion `network.toString()` and the `await` sequencing. Each pool's
  multicall outcome is an input, and the network is a string.
- `getAddress` is a foreign checksum routine and is given as the parameter
  `canon`. The model assumes it is deterministic. A throw from it (`None`)
  happens at line 68, before the dictionary is touched, so the pool is
  skipped. This is modelled.
- `formatUnits` and `parseFloat` are replaced by exact `real` arithmetic,
  `raw / 10^decimals`. Float rounding is not modelled, and neither are
  NaN values. Without NaN, the falsy check at line 79 only re-initialises
  a total that is already 0, so `AddStakes` keeps that check as written.
- The model assumes every pool's `decimals` is a size that `formatUnits`
  accepts (a natural number it does not reject). The source behaves
  differently otherwise, and the model does not capture it:
  - If `formatUnits` rejects a pool's `decimals`, the throw happens at the
    first address (lines 74-76), before anything is written. That pool is
    then skipped whole inside the `try`, but the model credits it.
  - If `formatUnits` rejects `options[0].decimals`, the throw at line 92
    aborts the whole invocation.
  - A throw that depends on one address's own balance would leave the
    dictionary partly updated. The model does not represent such a throw.
- The model does not handle a `minStakedBalance` that `formatUnits`
  rejects. Such a value would throw outside the `try` (line 92). The model
  takes it to be an already-parsed integer.
- `stakingType` is compared as a string. A non-string value can never
  equal `'open'` or `'standard'`, so it falls into the error case in the
  source as well.
- The contents of the ABI JSON documents are not available. Each
  descriptor is an opaque record of a name and input names, passed in
  as `abis`.
- `console.log` and `console.error` are left out because they are logging
  only.
- The model does not cover JavaScript object-key quirks, such as keys
  like `__proto__` or the order of `Object.keys`. The deletion loop visits
  keys in an arbitrary order, and the result does not depend on that
  order.
