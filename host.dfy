/** Everything the contract learns from outside itself: address validation
    and the queries it issues.  Each is an oracle whose answers are given;
    none of their internals (bank, Terra market curve, Astroport pair math,
    oracle hub, penalty formula) is modelled. */
module Host {
  import opened Uint128
  import opened Assets
  import opened Messages

  datatype Querier = Querier(
    /** `query_balance(account, denom)`: a native balance. */
    balance: (string, string) -> Result<u128>,
    /** `query_token_balance(token, account)`: a CW20 balance. */
    tokenBalance: (string, string) -> Result<u128>,
    /** `get_cluster_state(cluster)`. */
    clusterState: string -> Result<ClusterState>,
    /** `query_pair_info(factory, [a, b]).contract_addr`: fails when no pair exists. */
    pairInfo: (string, AssetInfo, AssetInfo) -> Result<string>,
    /** `TerraQuerier::query_swap(offer, ask).receive.amount`. */
    marketSwap: (Coin, string) -> Result<u128>,
    /** Astroport `simulate(pair, offer).return_amount`. */
    pairSimulate: (string, Asset) -> Result<u128>,
    /** `get_price(oracle_hub, asset).rate`. */
    price: (string, string) -> Result<Decimal>,
    /** `get_penalty_query_create(penalty, ...)`. */
    penaltyCreate: (string, PenaltyQuery) -> Result<PenaltyCreateResponse>)

  datatype Deps = Deps(
    /** `api.addr_validate`: true when the string is a valid address (which
        the contract then uses unchanged). */
    addrValid: string -> bool,
    querier: Querier)

  /** `api.addr_validate(addr)?`. */
  function Validate(deps: Deps, addr: string): Result<string> {
    if deps.addrValid(addr) then Ok(addr) else Err(InvalidAddress(addr))
  }
}
