/** Stage three of a mint, `_send_to_user`: forward everything the contract
    holds of the cluster token to the user. */
module DeliverStage {
  import opened Uint128
  import opened Messages
  import opened Host

  function SendToUserSpec(env: Env, deps: Deps, clusterToken: string, user: string): Result<Response> {
    var token :- Validate(deps, clusterToken);
    var amount :- deps.querier.tokenBalance(token, env.contractAddress);
    Ok(Response([WasmExecute(clusterToken, Cw20Transfer(user, amount), [])], []))
  }

  /** Delivery fails exactly when the cluster token address is invalid (an
      address error) or its balance query fails (that query's error);
      otherwise it is one transfer, with no funds and no attributes, of the
      contract's whole cluster-token balance to `user`. */
  lemma {:induction false} SendToUserForwardsAll(env: Env, deps: Deps, clusterToken: string, user: string)
    ensures !deps.addrValid(clusterToken) ==>
      SendToUserSpec(env, deps, clusterToken, user) == Err(InvalidAddress(clusterToken))
    ensures deps.addrValid(clusterToken) && deps.querier.tokenBalance(clusterToken, env.contractAddress).Err? ==>
      SendToUserSpec(env, deps, clusterToken, user) ==
        Err(deps.querier.tokenBalance(clusterToken, env.contractAddress).error)
    ensures SendToUserSpec(env, deps, clusterToken, user).Ok? ==>
      && deps.querier.tokenBalance(clusterToken, env.contractAddress).Ok?
      && var held := deps.querier.tokenBalance(clusterToken, env.contractAddress).value;
      SendToUserSpec(env, deps, clusterToken, user).value ==
        Response([WasmExecute(clusterToken, Cw20Transfer(user, held), [])], [])
  {}
}
