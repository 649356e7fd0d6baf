/** Stage one of a mint, `mint_ct`: read the cluster's targets and the
    contract's whole `uusd` balance, give each component its share, route it,
    and schedule the collect stage on the contract itself. */
module MintStage {
  import opened Uint128
  import opened Assets
  import opened Messages
  import opened Host
  import opened Allocation
  import opened Router

  /** `mint_ct`'s loop from `acc` over the remaining targets `t`: each
      iteration computes its share, then routes it. */
  function MintLoop(cfg: Config, deps: Deps, u: u128, total: u128, acc: Routed, t: seq<Asset>): Result<Routed>
    decreases |t|
  {
    if t == [] then Ok(acc)
    else
      var ratio :- MulDiv(u, t[0].amount, total);
      var d :- Route(cfg, deps, t[0], ratio);
      MintLoop(cfg, deps, u, total, acc.Then(d), t[1..])
  }

  /** The whole of `mint_ct` for a request from `user`. */
  function MintCtSpec(cfg: Config, env: Env, deps: Deps, clusterAddress: string, user: string): Result<Response> {
    var cluster :- Validate(deps, clusterAddress);
    var cs :- deps.querier.clusterState(cluster);
    var total :- TotalWeight(cs.target);
    var ust :- deps.querier.balance(env.contractAddress, UUSD);
    var r :- MintLoop(cfg, deps, ust, total, NoneRouted, cs.target);
    var next := PrivateMintCT(clusterAddress, r.natives, r.tokens, cs.clusterToken, user);
    Ok(Response(r.msgs + [SelfMsg(env, next)], r.attrs))
  }

  method MintCt(cfg: Config, env: Env, deps: Deps, clusterAddress: string, user: string)
    returns (r: Result<Response>)
    ensures r == MintCtSpec(cfg, env, deps, clusterAddress, user)
  {
    var cluster :- Validate(deps, clusterAddress);
    var cs :- deps.querier.clusterState(cluster);
    var total :- TotalWeight(cs.target);
    var ustAmt :- deps.querier.balance(env.contractAddress, UUSD);

    var natives: seq<string> := [];
    var tokens: seq<string> := [];
    var attrs: seq<Attribute> := [];
    var msgs: seq<CosmosMsg> := [];
    for i := 0 to |cs.target|
      invariant MintLoop(cfg, deps, ustAmt, total, NoneRouted, cs.target)
             == MintLoop(cfg, deps, ustAmt, total, Routed(natives, tokens, attrs, msgs), cs.target[i..])
    {
      var asset := cs.target[i];
      ghost var acc := Routed(natives, tokens, attrs, msgs);
      MintLoopUnfold(cfg, deps, ustAmt, total, acc, cs.target[i..]);
      assert cs.target[i..][0] == asset && cs.target[i..][1..] == cs.target[i + 1..];
      var assetRatio :- MulDiv(ustAmt, asset.amount, total);
      ghost var step := Route(cfg, deps, asset, assetRatio);
      match asset.info {
        case NativeToken(denom) =>
          natives := natives + [denom];
          if denom == UUSD {
            assert Routed(natives, tokens, attrs, msgs) == acc.Then(step.value);
            continue;
          }
          attrs := attrs + [Attribute("swap_ust_to_native_", denom), Attribute("amount", DecimalString(assetRatio))];
          msgs := msgs + [MarketSwap(Coin(UUSD, assetRatio), denom)];
          assert Routed(natives, tokens, attrs, msgs) == acc.Then(step.value);
        case Token(contractAddr) =>
          tokens := tokens + [contractAddr];
          attrs := attrs + [Attribute("swap_ust_to_token_", contractAddr), Attribute("amount", DecimalString(assetRatio))];
          if contractAddr != cfg.austTokenAddress {
            var swap :- SwapToUst(deps, Asset(asset.info, assetRatio), cfg.astroportFactoryAddress);
            msgs := msgs + [swap];
          } else {
            msgs := msgs + [WasmExecute(cfg.anchorMarketContract, DepositStable, [Coin(UUSD, assetRatio)])];
          }
          assert Routed(natives, tokens, attrs, msgs) == acc.Then(step.value);
      }
    }

    msgs := msgs + [SelfMsg(env, PrivateMintCT(clusterAddress, natives, tokens, cs.clusterToken, user))];
    return Ok(Response(msgs, attrs));
  }

  /** One iteration of the loop: the share, then the routing, then the rest. */
  lemma {:induction false} MintLoopUnfold(cfg: Config, deps: Deps, u: u128, total: u128, acc: Routed, t: seq<Asset>)
    requires t != []
    ensures MulDiv(u, t[0].amount, total).Err? ==>
      MintLoop(cfg, deps, u, total, acc, t) == Err(MulDiv(u, t[0].amount, total).error)
    ensures MulDiv(u, t[0].amount, total).Ok? ==>
      var d := Route(cfg, deps, t[0], MulDiv(u, t[0].amount, total).value);
      MintLoop(cfg, deps, u, total, acc, t) ==
        if d.Err? then Err(d.error) else MintLoop(cfg, deps, u, total, acc.Then(d.value), t[1..])
  {}

  /** The live loop succeeds exactly when the allocation plan exists and every
      component routes with its planned share, and then it is that routing:
      every share the live path spends is the plan's. */
  lemma {:induction false} MintLoopFollowsPlan(cfg: Config, deps: Deps, u: u128, total: u128, acc: Routed, t: seq<Asset>)
    ensures MintLoop(cfg, deps, u, total, acc, t).Ok? <==>
      && Allocate(u, total, t).Ok?
      && RoutePlan(cfg, deps, acc, t, Allocate(u, total, t).value).Ok?
    ensures MintLoop(cfg, deps, u, total, acc, t).Ok? ==>
      MintLoop(cfg, deps, u, total, acc, t) == RoutePlan(cfg, deps, acc, t, Allocate(u, total, t).value)
    decreases |t|
  {
    AllocateShares(u, total, t);
    if t != [] {
      var ratio := MulDiv(u, t[0].amount, total);
      if ratio.Ok? {
        var d := Route(cfg, deps, t[0], ratio.value);
        if d.Ok? {
          MintLoopFollowsPlan(cfg, deps, u, total, acc.Then(d.value), t[1..]);
        }
        if Allocate(u, total, t).Ok? {
          var p := Allocate(u, total, t).value;
          AllocateCons(u, total, t, p);
        }
      }
    }
  }

  /** `mint_ct` succeeds exactly when the cluster address is valid, the
      cluster and balance queries answer, the weight sum fits, the plan
      exists and every non-aUST token has a pair. */
  lemma {:induction false} MintCtSucceedsIff(cfg: Config, env: Env, deps: Deps, clusterAddress: string, user: string)
    ensures MintCtSpec(cfg, env, deps, clusterAddress, user).Ok? <==>
      && deps.addrValid(clusterAddress)
      && deps.querier.clusterState(clusterAddress).Ok?
      && var cs := deps.querier.clusterState(clusterAddress).value;
      && SumAmounts(cs.target) <= MAX_U128
      && deps.querier.balance(env.contractAddress, UUSD).Ok?
      && var u := deps.querier.balance(env.contractAddress, UUSD).value;
      && Allocate(u, SumAmounts(cs.target), cs.target).Ok?
      && var p := Allocate(u, SumAmounts(cs.target), cs.target).value;
      forall i :: 0 <= i < |cs.target| ==> Route(cfg, deps, cs.target[i], p[i]).Ok?
  {
    if deps.addrValid(clusterAddress) && deps.querier.clusterState(clusterAddress).Ok? {
      var cs := deps.querier.clusterState(clusterAddress).value;
      if SumAmounts(cs.target) <= MAX_U128 && deps.querier.balance(env.contractAddress, UUSD).Ok? {
        var u := deps.querier.balance(env.contractAddress, UUSD).value;
        var w: u128 := SumAmounts(cs.target);
        assert TotalWeight(cs.target) == Ok(w);
        MintLoopFollowsPlan(cfg, deps, u, w, NoneRouted, cs.target);
        if Allocate(u, w, cs.target).Ok? {
          RoutePlanOutputs(cfg, deps, NoneRouted, cs.target, Allocate(u, w, cs.target).value);
        }
      }
    }
  }

  /** A successful `mint_ct` consumes the plan: it sends each component's
      effect for its own share, in target order (one per non-uusd
      component), followed by the single collect self-call, which
      carries the target's natives and tokens in target order, the cluster
      token and the requesting user; the effects spend exactly the shares of
      the converted components, and the shares never exceed the balance U. */
  lemma {:induction false} MintCtOutputs(cfg: Config, env: Env, deps: Deps, clusterAddress: string, user: string, resp: Response)
    requires MintCtSpec(cfg, env, deps, clusterAddress, user) == Ok(resp)
    ensures deps.querier.clusterState(clusterAddress).Ok?
    ensures deps.querier.balance(env.contractAddress, UUSD).Ok?
    ensures
      var cs := deps.querier.clusterState(clusterAddress).value;
      var u := deps.querier.balance(env.contractAddress, UUSD).value;
      && Allocate(u, SumAmounts(cs.target), cs.target).Ok?
      && var p := Allocate(u, SumAmounts(cs.target), cs.target).value;
      && resp.messages == Effects(cfg, deps, cs.target, p) +
           [SelfMsg(env, PrivateMintCT(clusterAddress, NativeDenoms(cs.target),
                                       TokenAddrs(cs.target), cs.clusterToken, user))]
      && |resp.messages| == CountNonUusd(cs.target) + 1
      && resp.messages[|resp.messages| - 1] ==
           SelfMsg(env, PrivateMintCT(clusterAddress, NativeDenoms(cs.target),
                                      TokenAddrs(cs.target), cs.clusterToken, user))
      && Sum(p) <= u
      && TotalUusdSpent(resp.messages) == SwappedShare(cs.target, p) <= u
  {
    MintCtShape(cfg, env, deps, clusterAddress, user, resp);
    var cs := deps.querier.clusterState(clusterAddress).value;
    var u := deps.querier.balance(env.contractAddress, UUSD).value;
    var w: u128 := SumAmounts(cs.target);
    MintLoopFollowsPlan(cfg, deps, u, w, NoneRouted, cs.target);
    var p := Allocate(u, w, cs.target).value;
    RoutePlanOutputs(cfg, deps, NoneRouted, cs.target, p);
    var r := RoutePlan(cfg, deps, NoneRouted, cs.target, p).value;
    assert r.natives == [] + NativeDenoms(cs.target) == NativeDenoms(cs.target);
    assert r.tokens == [] + TokenAddrs(cs.target) == TokenAddrs(cs.target);
    assert r.msgs == [] + Effects(cfg, deps, cs.target, p) == Effects(cfg, deps, cs.target, p);
    var last := SelfMsg(env, PrivateMintCT(clusterAddress, r.natives, r.tokens, cs.clusterToken, user));
    assert resp.messages == r.msgs + [last];
    TotalUusdSpentAppend(r.msgs, [last]);
    assert TotalUusdSpent([last]) == 0;
    SwappedShareAtMost(cs.target, p);
    if w > 0 {
      AllocationWithinBalance(u, cs.target, p);
    } else {
      AllocateShares(u, w, cs.target);
      assert cs.target == [];
    }
  }

  /** The steps a successful `mint_ct` went through. */
  lemma {:induction false} MintCtShape(cfg: Config, env: Env, deps: Deps, clusterAddress: string, user: string, resp: Response)
    requires MintCtSpec(cfg, env, deps, clusterAddress, user) == Ok(resp)
    ensures deps.querier.clusterState(clusterAddress).Ok?
    ensures deps.querier.balance(env.contractAddress, UUSD).Ok?
    ensures
      var cs := deps.querier.clusterState(clusterAddress).value;
      var u := deps.querier.balance(env.contractAddress, UUSD).value;
      && SumAmounts(cs.target) <= MAX_U128
      && MintLoop(cfg, deps, u, SumAmounts(cs.target), NoneRouted, cs.target).Ok?
      && var r := MintLoop(cfg, deps, u, SumAmounts(cs.target), NoneRouted, cs.target).value;
      resp == Response(r.msgs + [SelfMsg(env, PrivateMintCT(clusterAddress, r.natives, r.tokens, cs.clusterToken, user))], r.attrs)
  {}

  /** A cluster whose targets all have weight zero cannot be minted: the
      first share divides by zero. */
  lemma {:induction false} MintCtZeroWeightAborts(cfg: Config, env: Env, deps: Deps, clusterAddress: string, user: string)
    requires deps.addrValid(clusterAddress) && deps.querier.clusterState(clusterAddress).Ok?
    requires var cs := deps.querier.clusterState(clusterAddress).value;
      cs.target != [] && SumAmounts(cs.target) == 0
    requires deps.querier.balance(env.contractAddress, UUSD).Ok?
    ensures MintCtSpec(cfg, env, deps, clusterAddress, user) == Err(DivideByZero)
  {
    var cs := deps.querier.clusterState(clusterAddress).value;
    assert cs.target[0].amount == 0;
  }
}
