# mint-ct-with-ust, modelled in Dafny

A model of the Nebula "mint cluster tokens with UST" contract
(`contracts/mint-ct-with-ust/src/contract.rs`). A user sends `uusd` and asks
for a cluster. The contract then mints in three stages. Each stage is one
`execute` call, and each later stage is scheduled by the one before it as a
message to the contract itself.

1. `mint_ct` reads the cluster's target list and the contract's whole `uusd`
   balance U. Each component gets the share `floor(U * w / W)`, where W is
   the sum of the weights. The stage routes that share by asset kind:
   - native `uusd` is kept;
   - another native gets a market swap;
   - aUST gets an Anchor `DepositStable`;
   - any other token gets an Astroport pair swap.

   It then schedules `_mint_ct` with the natives and tokens it saw.
2. `_mint_ct` reads the contract's balance of every native and token it was
   told about. It grants the incentives contract an allowance for each
   token's whole balance. It asks the incentives contract to create cluster
   tokens from all of them, with the native coins attached sorted by denom.
   Then it schedules `_send_to_user`.
3. `_send_to_user` transfers the contract's whole cluster-token balance to
   the user.

The query `simulate_mint` previews a mint of a given amount of `uusd`. It
computes the same shares and replaces each conversion by a quote of what it
would return. It passes the quotes to the cluster's penalty contract and
returns that contract's answer. It emits nothing.

How the model is built:
- Uint128 arithmetic is checked (`uint128.dfy`). An overflow or a division
  by zero, which panics in the contract, is an `Err` of the step.
- The host is a value, `Deps` (`host.dfy`). It holds address validation and
  every query as given functions, including:
  - the bank and CW20 balances;
  - the pair lookup and pair simulation;
  - the market swap quote;
  - `get_cluster_state`, `get_price` and `get_penalty_query_create`.
- Each stage with a loop (`mint_ct`, `_mint_ct`, `simulate_mint`) has two
  forms:
  - a method with the source's loops and the vectors they push onto, proved
    equal to a recursive specification function;
  - lemmas stating what the specification function guarantees.
- `_send_to_user`, which has no loop, is a function with its lemma.
- `contract.dfy` holds the `execute`/`query` dispatch and the properties
  that cross stages.

Two behaviours of the source are reproduced as written:
- Neither `_MintCT` nor `_SendToUser` checks who calls it. Anyone may run
  them with any lists, cluster token and user.
- `_mint_ct` validates `user` but discards the result, so an invalid user
  does not stop that stage.

## Model

| member | source | states |
|---|---|---|
| Uint128.CheckedAdd | contracts/mint-ct-with-ust/src/contract.rs:246 | Adding two weights succeeds exactly when the true sum fits in 128 bits. The result is then that sum; otherwise the error is an overflow. |
| Uint128.MulDiv | contracts/mint-ct-with-ust/src/contract.rs:259 | `U * w / W` succeeds exactly when the product fits and W is positive. It fails with an overflow exactly when the product does not fit (the product is checked before the division). A success is the floor of the quotient. |
| Uint128.MultiplyRatio | contracts/mint-ct-with-ust/src/contract.rs:426 | `x.multiply_ratio(num, den)` succeeds exactly when `den > 0` and the quotient of the full-width product fits. It fails with division by zero exactly when `den == 0`. A success is the floor of `x * num / den`. |
| Uint128.DecimalMulFractional | contracts/mint-ct-with-ust/src/contract.rs:426 | `price * DECIMAL_FRACTIONAL` never fails. It is the rate truncated to nine decimal places, `floor(rate * 10^9)`. |
| Assets.Amounts | contracts/mint-ct-with-ust/src/contract.rs:442-446 | The target weights handed to the penalty query: one per component, in order, each that component's amount. |
| Assets.KindSplitPermutes | contracts/mint-ct-with-ust/src/contract.rs:261-294 | The natives list followed by the tokens list is a rearrangement of the target's asset infos: nothing is lost, duplicated or invented. |
| Assets.KindsCover | contracts/mint-ct-with-ust/src/contract.rs:261-294 | Every component lands in exactly one of the two lists: the natives list and the tokens list together are as long as the target. |
| Allocation.TotalWeightFrom | contracts/mint-ct-with-ust/src/contract.rs:246 | The checked weight sum succeeds exactly when the true sum fits in 128 bits. The result is then the true sum; otherwise the error is an overflow. |
| Allocation.AllocateShares | contracts/mint-ct-with-ust/src/contract.rs:258-259 | A share plan exists exactly when the target is empty, or W > 0 and no product `U * w` overflows. It then has one share per component, each `floor(U * w / W)`. |
| Allocation.SharesAndRemainders | contracts/mint-ct-with-ust/src/contract.rs:259 | The shares times W, plus the remainders the divisions discard, equal `U * ΣW` exactly. The remainders total at most `n * (W - 1)` for n components. |
| Allocation.AllocationWithinBalance | contracts/mint-ct-with-ust/src/contract.rs:246-259 | When W is the true weight sum, the shares total at most U. The shortfall times W is exactly the discarded remainders, and the shortfall is less than the number of components. |
| Router.RouteEffect | contracts/mint-ct-with-ust/src/contract.rs:261-294 | Routing fails exactly for a non-aUST token without a pair. On success, a native is recorded in the natives list and a token in the tokens list. `uusd` gets no message. Every other component gets exactly one message spending exactly its share: a market swap for a native, `DepositStable` to the Anchor market for aUST, and a pair `Swap` offering the share with matching `uusd` funds for any other token. The messages are exactly the reference `Effect` of the component and its share. |
| Router.RoutePlanOutputs | contracts/mint-ct-with-ust/src/contract.rs:258-295 | Routing a plan succeeds exactly when every component routes. The natives and tokens lists then extend by the target's natives (`uusd` included) and tokens, in target order. The messages are extended by `Effects`: each component's own `Effect` for its share, in target order. They grow by one per non-`uusd` component and spend exactly the shares of the converted components. |
| MintStage.MintCt | contracts/mint-ct-with-ust/src/contract.rs:237-310 | The loop over the targets that pushes onto `natives`, `tokens`, `attrs` and `msgs` computes exactly the specified stage, including every error exit. |
| MintStage.MintLoopFollowsPlan | contracts/mint-ct-with-ust/src/contract.rs:258-295 | The live loop succeeds exactly when the share plan exists and every component routes with its planned share. It then equals the routing of that plan. |
| MintStage.MintCtSucceedsIff | contracts/mint-ct-with-ust/src/contract.rs:243-294 | `mint_ct` succeeds exactly when all of these hold: the cluster address is valid; the cluster and balance queries answer; the weight sum fits; the share plan exists; and every component routes. |
| MintStage.MintCtOutputs | contracts/mint-ct-with-ust/src/contract.rs:253-309 | A successful `mint_ct` sends `Effects` of the target and the plan, that is each component's `Effect` for its share in target order, followed by one more message. That last message is the `_MintCT` self-call with the target's natives and tokens in target order, the cluster token and the requesting user. The messages spend exactly the converted components' shares, and the shares total at most U. |
| MintStage.MintCtZeroWeightAborts | contracts/mint-ct-with-ust/src/contract.rs:246-259 | A non-empty target whose weights are all zero aborts `mint_ct` with a division by zero. |
| CollectStage.PrivateMintCt | contracts/mint-ct-with-ust/src/contract.rs:122-200 | The two loops pushing onto `msgs`, `funds`, `assets` and `attrs`, then the sort and the two final messages, compute exactly the specified stage, including every error exit. |
| CollectStage.NativesLoopSucceedsIff | contracts/mint-ct-with-ust/src/contract.rs:139-140 | The natives loop succeeds exactly when every native balance query answers. |
| CollectStage.NativesLoopKeeps | contracts/mint-ct-with-ust/src/contract.rs:139-151 | The natives loop adds no message. It keeps the funds and assets already gathered and adds one of each per native. |
| CollectStage.NativesLoopOutputs | contracts/mint-ct-with-ust/src/contract.rs:139-151 | For the i-th native, the loop appends its whole balance as a coin of the funds and as a native asset. |
| CollectStage.TokensLoopSucceedsIff | contracts/mint-ct-with-ust/src/contract.rs:153-159 | The tokens loop succeeds exactly when every token address is valid and every token balance query answers. |
| CollectStage.TokensLoopKeeps | contracts/mint-ct-with-ust/src/contract.rs:153-176 | The tokens loop leaves the funds alone. It keeps the messages and assets already gathered and adds one of each per token. |
| CollectStage.TokensLoopOutputs | contracts/mint-ct-with-ust/src/contract.rs:153-176 | For the j-th token, the loop appends one `IncreaseAllowance` of its whole balance to the incentives contract, and the token asset of that balance. |
| CollectStage.PrivateMintCtSucceedsIff | contracts/mint-ct-with-ust/src/contract.rs:131-176 | `_mint_ct` succeeds exactly when every native balance query answers, every token address is valid and every token balance answers. An invalid user does not matter. |
| CollectStage.PrivateMintCtMessages | contracts/mint-ct-with-ust/src/contract.rs:160-199 | The stage sends exactly `|tokens| + 2` messages, in this order: one allowance per token of its whole balance, in token order; then one `IncentivesCreate` to the incentives contract for the cluster, with no minimum; then the `_SendToUser` self-call. |
| CollectStage.PrivateMintCtAssets | contracts/mint-ct-with-ust/src/contract.rs:139-188 | The assets of the `IncentivesCreate` are the natives, each with its balance, followed by the tokens, each with its token balance, in the order given. |
| CollectStage.PrivateMintCtFunds | contracts/mint-ct-with-ust/src/contract.rs:139-188 | The funds of the `IncentivesCreate` are sorted by denom. They are exactly the coins of the native assets, the same denoms with the same amounts, rearranged. |
| FundsOrder.LexTotal | contracts/mint-ct-with-ust/src/contract.rs:178 | The denom order is total: any two strings compare. |
| FundsOrder.InsertByDenom | contracts/mint-ct-with-ust/src/contract.rs:178 | Inserting a coin into a list sorted by denom keeps it sorted, adds exactly that coin, and puts either the coin or the old head first. |
| FundsOrder.SortByDenom | contracts/mint-ct-with-ust/src/contract.rs:178 | `funds.sort_by(denom)` yields a list sorted by denom that holds exactly the given coins. |
| DeliverStage.SendToUserForwardsAll | contracts/mint-ct-with-ust/src/contract.rs:98-120 | An invalid cluster-token address fails with an address error. A failed balance query fails with that query's error. Otherwise the stage sends exactly one CW20 `Transfer`, with no funds, of the contract's whole cluster-token balance to the user. |
| Simulator.AustFromUst | contracts/mint-ct-with-ust/src/contract.rs:418-428 | The aUST quote divides by zero exactly when the rate is below 10^-9. It succeeds exactly when the rate is at least that and `ratio * 10^9 / floor(rate * 10^9)` fits. It is then the floor of that quotient. |
| Simulator.SimQuoteCases | contracts/mint-ct-with-ust/src/contract.rs:377-431 | `uusd` is quoted as its own share. Another native gets the market's swap quote, and a non-aUST token its pair's simulated return (failing without a pair). aUST gets the oracle conversion, failing when the price query fails. |
| Simulator.SimulateMint | contracts/mint-ct-with-ust/src/contract.rs:361-455 | The loop pushing onto `create_asset_amounts`, then the penalty query, computes exactly the specified preview, including every error exit. |
| Simulator.SimLoopFollowsPlan | contracts/mint-ct-with-ust/src/contract.rs:374-432 | The preview loop succeeds exactly when the share plan exists and every component is quoted for its planned share. It then equals the quotes of that plan. |
| Simulator.SimPlanOutputs | contracts/mint-ct-with-ust/src/contract.rs:374-432 | Quoting a plan succeeds exactly when every component's quote does. It then appends one amount per component, in target order, each the quote for that component's share. |
| Simulator.SimulateMintAmounts | contracts/mint-ct-with-ust/src/contract.rs:370-432 | A successful preview has one amount per target component, in order. Each is the quote for the component's share `floor(ust * w / W)`. |
| Simulator.SimulateMintPassthrough | contracts/mint-ct-with-ust/src/contract.rs:434-454 | The penalty contract is asked with the target weights in order. Its `create_tokens`, `penalty` and `attributes` come back unchanged. |
| Simulator.SimulateMintSucceedsIff | contracts/mint-ct-with-ust/src/contract.rs:367-447 | The preview succeeds exactly when all of these hold: the cluster address is valid; the cluster answers; the weight sum fits; the plan exists; every component is quoted; the penalty address is valid; and the penalty contract answers. |
| Contract.Execute | contracts/mint-ct-with-ust/src/contract.rs:58-86 | `execute` dispatches each message to its stage. A public mint is made on behalf of its sender. |
| Contract.Query | contracts/mint-ct-with-ust/src/contract.rs:89-96 | `query` answers the preview and nothing else. |
| Contract.PrivateStagesIgnoreSender | contracts/mint-ct-with-ust/src/contract.rs:64-85 | `_MintCT` and `_SendToUser` give every sender the same outcome, since no caller is checked. The public mint schedules the collect stage for its own sender. |
| Contract.MintChain | contracts/mint-ct-with-ust/src/contract.rs:98-309 | The three stages hand over to each other, whatever host state each runs in and whoever sends the later calls. The mint schedules collection of the target's natives and tokens for the sender. A successful collection sends `|tokens| + 2` messages; its `IncentivesCreate` lists exactly the target's components, natives first; and it schedules delivery to the sender. A successful delivery transfers the whole cluster-token balance. |
| Contract.CollectCarriesTarget | contracts/mint-ct-with-ust/src/contract.rs:139-188 | Told a target's natives and tokens, the collect stage creates from exactly that target's components, natives first, up to order. |
| Contract.PreviewUsesLivePlan | contracts/mint-ct-with-ust/src/contract.rs:374-375 | For the same amount and target list, the preview's shares (line 375) and the mint's (line 259) are the same plan `Allocate(U, W, target)`. |
| Contract.MintAndPreviewAgree | contracts/mint-ct-with-ust/src/contract.rs:247-259 | When a mint of the whole balance U and a preview for U both succeed on one cluster, they follow one plan. The mint's messages before its final self-call are each component's `Effect` for its share in that plan, in target order. They spend exactly the converted components' shares, and the preview's i-th amount is the quote for the i-th share. |

## Left out

- `instantiate` and the stored `State` are not modelled. The configuration is an input record (`Config`), since `STATE.load` only reads what instantiate wrote. `set_contract_version` is storage bookkeeping.
- JSON and binary encoding (`to_binary`, the message schemas) is not modelled. A payload is carried as the value it encodes, and a query answer is already decoded.
- The collaborators' internals are not modelled, only consulted as given functions of their arguments:
  - bank and CW20 balances;
  - the Terra market swap curve;
  - Astroport pair lookup and pair math;
  - the oracle hub price;
  - the cluster state;
  - the penalty formula;
  - address validation.
- Host execution semantics are not modelled: dispatching the emitted messages, committing each stage, and rolling back on failure. So the balances a later stage sees are independent inputs, and nothing is proved about what the swaps return or about leftover balances.
- Interleaved mint requests from different users are not modelled. That is concurrency the contract does not arbitrate.
- The contents of the attributes are computed but no property about them is stated.
- FundsOrder.SortByDenom: the result is proved sorted and a permutation, not stable. `sort_by` is a standard-library call; it is modelled as a function on a sequence, not as an in-place sort of the vector.
- Panics (overflowing `+` or `*`, division by zero, an overflowing `multiply_ratio`) become an `Err` of the stage. The model does not distinguish a panic from a returned error.
