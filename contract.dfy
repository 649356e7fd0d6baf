/** The entry points: `execute` dispatches the three mint stages, `query`
    the preview.  The stages the contract schedules for itself are ordinary
    entry points: nothing checks who calls them or what they are told. */
module Contract {
  import opened Uint128
  import opened Assets
  import opened Messages
  import opened Host
  import opened Allocation
  import opened Router
  import opened MintStage
  import opened CollectStage
  import opened DeliverStage
  import opened Simulator

  /** `execute`: a public mint is made on behalf of its sender. */
  function ExecuteSpec(cfg: Config, env: Env, deps: Deps, info: MessageInfo, msg: ExecuteMsg): Result<Response> {
    match msg
    case MintCT(clusterAddress) => MintCtSpec(cfg, env, deps, clusterAddress, info.sender)
    case PrivateMintCT(clusterAddress, natives, tokens, clusterToken, user) =>
      PrivateMintCtSpec(cfg, env, deps, clusterAddress, natives, tokens, clusterToken, user)
    case PrivateSendToUser(clusterToken, user) => SendToUserSpec(env, deps, clusterToken, user)
  }

  method Execute(cfg: Config, env: Env, deps: Deps, info: MessageInfo, msg: ExecuteMsg)
    returns (r: Result<Response>)
    ensures r == ExecuteSpec(cfg, env, deps, info, msg)
  {
    match msg {
      case MintCT(clusterAddress) =>
        r := MintCt(cfg, env, deps, clusterAddress, info.sender);
      case PrivateMintCT(clusterAddress, natives, tokens, clusterToken, user) =>
        r := PrivateMintCt(cfg, env, deps, clusterAddress, natives, tokens, clusterToken, user);
      case PrivateSendToUser(clusterToken, user) =>
        r := SendToUserSpec(env, deps, clusterToken, user);
    }
  }

  /** `query`: the preview answers a value and has no effects of any kind. */
  function QuerySpec(cfg: Config, env: Env, deps: Deps, msg: QueryMsg): Result<SimulateMintResponse> {
    SimulateMintSpec(cfg, env, deps, msg.clusterAddress, msg.ustAmount)
  }

  method Query(cfg: Config, env: Env, deps: Deps, msg: QueryMsg) returns (r: Result<SimulateMintResponse>)
    ensures r == QuerySpec(cfg, env, deps, msg)
  {
    r := SimulateMint(cfg, env, deps, msg.clusterAddress, msg.ustAmount);
  }

  /** The two internal stages do not look at who sent them: any account gets
      the same outcome, so anyone may trigger them with any lists, cluster
      token and user.  Only the public mint depends on the sender, who
      becomes the user of the scheduled collect stage. */
  lemma {:induction false} PrivateStagesIgnoreSender(cfg: Config, env: Env, deps: Deps, a: MessageInfo, b: MessageInfo, msg: ExecuteMsg)
    ensures !msg.MintCT? ==> ExecuteSpec(cfg, env, deps, a, msg) == ExecuteSpec(cfg, env, deps, b, msg)
    ensures msg.MintCT? && ExecuteSpec(cfg, env, deps, a, msg).Ok? ==>
      var resp := ExecuteSpec(cfg, env, deps, a, msg).value;
      && resp.messages != []
      && var last := resp.messages[|resp.messages| - 1];
      && last.WasmExecute? && last.contractAddr == env.contractAddress && last.payload.SelfCall?
      && last.payload.call.PrivateMintCT? && last.payload.call.user == a.sender
  {
    if msg.MintCT? && ExecuteSpec(cfg, env, deps, a, msg).Ok? {
      MintCtOutputs(cfg, env, deps, msg.clusterAddress, a.sender, ExecuteSpec(cfg, env, deps, a, msg).value);
    }
  }

  /** The three stages of a mint requested by `info.sender` hand over to
      each other, whatever the host state (`deps1`, `deps2`, `deps3`) each
      one later runs in and whoever sends the later calls: the public mint
      schedules the collect stage with the target's natives and tokens, the
      cluster token and the sender; the collect stage sends one allowance per
      token, an `IncentivesCreate` whose assets are exactly the target's
      components (natives first, then tokens) and then schedules delivery of
      the cluster token to the sender; and delivery transfers the whole
      cluster-token balance to the sender. */
  lemma {:induction false} MintChain(cfg: Config, env: Env, deps1: Deps, deps2: Deps, deps3: Deps,
                  info: MessageInfo, info2: MessageInfo, info3: MessageInfo,
                  clusterAddress: string, resp1: Response)
    requires ExecuteSpec(cfg, env, deps1, info, MintCT(clusterAddress)) == Ok(resp1)
    ensures deps1.querier.clusterState(clusterAddress).Ok? && resp1.messages != []
    ensures
      var cs := deps1.querier.clusterState(clusterAddress).value;
      var collect := PrivateMintCT(clusterAddress, NativeDenoms(cs.target), TokenAddrs(cs.target),
                                   cs.clusterToken, info.sender);
      && resp1.messages[|resp1.messages| - 1] == SelfMsg(env, collect)
      && (ExecuteSpec(cfg, env, deps2, info2, collect).Ok? ==>
            var resp2 := ExecuteSpec(cfg, env, deps2, info2, collect).value;
            && |resp2.messages| == |TokenAddrs(cs.target)| + 2
            && resp2.messages[|resp2.messages| - 1] == SelfMsg(env, PrivateSendToUser(cs.clusterToken, info.sender))
            && var create := resp2.messages[|resp2.messages| - 2];
            && create.WasmExecute? && create.payload.IncentivesCreate?
            && Infos(create.payload.assetAmounts) == NativeInfos(NativeDenoms(cs.target)) + TokenInfos(TokenAddrs(cs.target))
            && multiset(Infos(create.payload.assetAmounts)) == multiset(Infos(cs.target)))
    ensures
      var cs := deps1.querier.clusterState(clusterAddress).value;
      var deliver := PrivateSendToUser(cs.clusterToken, info.sender);
      ExecuteSpec(cfg, env, deps3, info3, deliver).Ok? ==>
        && deps3.querier.tokenBalance(cs.clusterToken, env.contractAddress).Ok?
        && ExecuteSpec(cfg, env, deps3, info3, deliver).value.messages ==
             [WasmExecute(cs.clusterToken,
                          Cw20Transfer(info.sender, deps3.querier.tokenBalance(cs.clusterToken, env.contractAddress).value),
                          [])]
  {
    MintCtOutputs(cfg, env, deps1, clusterAddress, info.sender, resp1);
    var cs := deps1.querier.clusterState(clusterAddress).value;
    CollectCarriesTarget(cfg, env, deps2, info2, clusterAddress, cs.target, cs.clusterToken, info.sender);
    SendToUserForwardsAll(env, deps3, cs.clusterToken, info.sender);
  }

  /** The collect stage, told a target's natives and tokens, sends one
      allowance per token, an `IncentivesCreate` whose assets are the
      target's components, natives first, and the delivery self-call. */
  lemma {:induction false} CollectCarriesTarget(cfg: Config, env: Env, deps: Deps, info: MessageInfo, clusterAddress: string,
                             t: seq<Asset>, clusterToken: string, user: string)
    ensures
      var collect := PrivateMintCT(clusterAddress, NativeDenoms(t), TokenAddrs(t), clusterToken, user);
      ExecuteSpec(cfg, env, deps, info, collect).Ok? ==>
        var resp := ExecuteSpec(cfg, env, deps, info, collect).value;
        && |resp.messages| == |TokenAddrs(t)| + 2
        && resp.messages[|resp.messages| - 1] == SelfMsg(env, PrivateSendToUser(clusterToken, user))
        && var create := resp.messages[|resp.messages| - 2];
        && create.WasmExecute? && create.payload.IncentivesCreate?
        && Infos(create.payload.assetAmounts) == NativeInfos(NativeDenoms(t)) + TokenInfos(TokenAddrs(t))
        && multiset(Infos(create.payload.assetAmounts)) == multiset(Infos(t))
  {
    var natives := NativeDenoms(t);
    var tokens := TokenAddrs(t);
    var collect := PrivateMintCT(clusterAddress, natives, tokens, clusterToken, user);
    if ExecuteSpec(cfg, env, deps, info, collect).Ok? {
      var resp := ExecuteSpec(cfg, env, deps, info, collect).value;
      PrivateMintCtMessages(cfg, env, deps, clusterAddress, natives, tokens, clusterToken, user, resp);
      PrivateMintCtAssets(cfg, env, deps, clusterAddress, natives, tokens, clusterToken, user, resp);
      var assets := resp.messages[|tokens|].payload.assetAmounts;
      InfosOfKinds(assets, natives, tokens);
      KindSplitPermutes(t);
    }
  }

  /** The infos of a list made of the given natives and then the given tokens. */
  lemma {:induction false} InfosOfKinds(assets: seq<Asset>, natives: seq<string>, tokens: seq<string>)
    requires |assets| == |natives| + |tokens|
    requires forall i :: 0 <= i < |natives| ==> assets[i].info == NativeToken(natives[i])
    requires forall j :: 0 <= j < |tokens| ==> assets[|natives| + j].info == Token(tokens[j])
    ensures Infos(assets) == NativeInfos(natives) + TokenInfos(tokens)
  {
    forall i | |natives| <= i < |assets|
      ensures Infos(assets)[i] == (NativeInfos(natives) + TokenInfos(tokens))[i]
    {
      assert assets[|natives| + (i - |natives|)] == assets[i];
    }
  }

  /** The live mint and the preview share one allocation plan: for the same
      amount U of uusd and the same target list, the public mint's routing is
      the routing of the plan `Allocate(U, W, target)` and the preview's
      amounts are the quotes of that same plan, so every component's share
      `floor(U * w / W)` is the same on both paths. */
  lemma {:induction false} PreviewUsesLivePlan(cfg: Config, env: Env, deps: Deps, u: u128, total: u128, t: seq<Asset>)
    ensures MintLoop(cfg, deps, u, total, NoneRouted, t).Ok? ==>
      && Allocate(u, total, t).Ok?
      && MintLoop(cfg, deps, u, total, NoneRouted, t) == RoutePlan(cfg, deps, NoneRouted, t, Allocate(u, total, t).value)
    ensures SimLoop(cfg, deps, u, total, [], t).Ok? ==>
      && Allocate(u, total, t).Ok?
      && SimLoop(cfg, deps, u, total, [], t) == SimPlan(cfg, deps, [], t, Allocate(u, total, t).value)
  {
    MintLoopFollowsPlan(cfg, deps, u, total, NoneRouted, t);
    SimLoopFollowsPlan(cfg, deps, u, total, [], t);
  }

  /** End to end: when a mint of the contract's whole balance U and a
      preview for U both succeed on the same cluster, they are driven by one
      plan `p` of shares: the mint's messages before its final self-call are
      each component's effect for `p[i]`, in target order, spending exactly
      the shares of the converted components, and the preview's i-th amount
      is the quote for `p[i]`. */
  lemma {:induction false} MintAndPreviewAgree(cfg: Config, env: Env, deps: Deps, info: MessageInfo, clusterAddress: string,
                            resp: Response, sim: SimulateMintResponse)
    requires ExecuteSpec(cfg, env, deps, info, MintCT(clusterAddress)) == Ok(resp)
    requires deps.querier.balance(env.contractAddress, UUSD).Ok?
    requires QuerySpec(cfg, env, deps, SimulateMintQuery(clusterAddress,
               deps.querier.balance(env.contractAddress, UUSD).value)) == Ok(sim)
    ensures deps.querier.clusterState(clusterAddress).Ok?
    ensures
      var cs := deps.querier.clusterState(clusterAddress).value;
      var u := deps.querier.balance(env.contractAddress, UUSD).value;
      && Allocate(u, SumAmounts(cs.target), cs.target).Ok?
      && var p := Allocate(u, SumAmounts(cs.target), cs.target).value;
      && resp.messages != []
      && resp.messages[..|resp.messages| - 1] == Effects(cfg, deps, cs.target, p)
      && TotalUusdSpent(resp.messages) == SwappedShare(cs.target, p)
      && |sim.createAssetAmounts| == |cs.target|
      && forall i :: 0 <= i < |cs.target| ==>
           SimQuote(cfg, deps, cs.target[i], p[i]) == Ok(sim.createAssetAmounts[i])
  {
    var u := deps.querier.balance(env.contractAddress, UUSD).value;
    MintCtOutputs(cfg, env, deps, clusterAddress, info.sender, resp);
    var cs := deps.querier.clusterState(clusterAddress).value;
    var p := Allocate(u, SumAmounts(cs.target), cs.target).value;
    var effects := Effects(cfg, deps, cs.target, p);
    assert resp.messages[..|resp.messages| - 1] == effects by {
      assert resp.messages == effects + [resp.messages[|resp.messages| - 1]];
    }
    SimulateMintAmounts(cfg, env, deps, clusterAddress, u, sim);
  }
}
