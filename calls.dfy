/**
 * Building the multicall batch of one pool: one call per address, each call's
 * arguments bound by input name, and the block tag the batch is read at.
 */
module Calls {
  import opened Wrappers
  import opened Pools

  /** One entry of the batch: the pool contract, the ABI function's name and
      the argument list; an argument the binding leaves undefined is `None`. */
  datatype Call = Call(target: string, functionName: string, args: seq<Option<string>>)

  /** The `snapshot` argument: a number, or anything else (usually "latest"). */
  datatype Snapshot = BlockNumber(height: int) | NotANumber(text: string)

  datatype BlockTag = AtBlock(height: int) | Latest

  /** One multicall issued by the strategy: network, the one-element ABI set,
      the batch, and `{ blockTag }`. */
  datatype Request = Request(network: string, abi: Abi, calls: seq<Call>, blockTag: BlockTag)

  /** A numeric snapshot is read at that block; anything else reads the latest block. */
  function ChooseBlockTag(snapshot: Snapshot): (tag: BlockTag)
    ensures tag.AtBlock? <==> snapshot.BlockNumber?
    ensures snapshot.BlockNumber? ==> tag.height == snapshot.height
  {
    match snapshot
    case BlockNumber(h) => AtBlock(h)
    case NotANumber(_) => Latest
  }

  /** An input whose name gives the holder's role. */
  predicate IsHolderInput(input: string)
  {
    input == "staker" || input == "account"
  }

  function BindInput(input: string, token: string, holder: string): Option<string>
  {
    if input == "id" then Some(token)
    else if IsHolderInput(input) then Some(holder)
    else None
  }

  /** The argument list of one call: same length and order as the ABI's inputs. */
  function BindArgs(inputs: seq<string>, token: string, holder: string): (args: seq<Option<string>>)
    ensures |args| == |inputs|
    ensures forall j :: 0 <= j < |inputs| && inputs[j] == "id" ==> args[j] == Some(token)
    ensures forall j :: 0 <= j < |inputs| && IsHolderInput(inputs[j]) ==> args[j] == Some(holder)
    ensures forall j :: 0 <= j < |inputs| && inputs[j] != "id" && !IsHolderInput(inputs[j]) ==> args[j].None?
  {
    seq(|inputs|, j requires 0 <= j < |inputs| => BindInput(inputs[j], token, holder))
  }

  /** `stakingCalls`: one call per address, in the order of `addresses`. */
  function BuildCalls(abi: Abi, pool: PoolConfig, addresses: seq<string>): (calls: seq<Call>)
    ensures |calls| == |addresses|
    ensures forall i :: 0 <= i < |addresses| ==>
      && calls[i].target == pool.stakingPoolContractAddress
      && calls[i].functionName == abi.name
      && calls[i].args == BindArgs(abi.inputs, pool.tokenContractAddress, addresses[i])
  {
    seq(|addresses|, i requires 0 <= i < |addresses| =>
      Call(pool.stakingPoolContractAddress, abi.name, BindArgs(abi.inputs, pool.tokenContractAddress, addresses[i])))
  }

  /** The address a call carries in its `j`-th argument, "" when there is none. */
  function ArgAt(call: Call, j: nat): string
  {
    if j < |call.args| && call.args[j].Some? then call.args[j].value else ""
  }

  /** Results are mapped back to addresses by position: when the ABI has a
      holder input, reading that argument back out of the batch gives the
      address list again, in the same order. */
  lemma HoldersRoundTrip(abi: Abi, pool: PoolConfig, addresses: seq<string>, j: nat)
    requires j < |abi.inputs| && IsHolderInput(abi.inputs[j])
    ensures var calls := BuildCalls(abi, pool, addresses);
      seq(|calls|, i requires 0 <= i < |calls| => ArgAt(calls[i], j)) == addresses
  {
  }
}
