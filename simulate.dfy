/** The preview, `simulate_mint`: the same shares as `mint_ct`, but for a
    given amount of uusd; every conversion is replaced by a quote of what it
    would return, and the quotes are handed to the cluster's penalty
    contract.  It is a query: it emits nothing and changes nothing. */
module Simulator {
  import opened Uint128
  import opened Assets
  import opened Messages
  import opened Host
  import opened Allocation

  /** aUST bought by `ratio` uusd at the oracle `rate` (uusd per aUST):
      `ratio.multiply_ratio(10^9, rate * 10^9)`.  The rate is truncated to
      nine decimal places, so a rate below 10^-9 divides by zero; the
      result is the floor of `ratio * 10^9 / floor(rate * 10^9)`. */
  function AustFromUst(ratio: u128, rate: Decimal): (r: Result<u128>)
    ensures rate.atomics < DECIMAL_FRACTIONAL <==> r == Err(DivideByZero)
    ensures r.Ok? <==>
      rate.atomics >= DECIMAL_FRACTIONAL &&
      ratio * DECIMAL_FRACTIONAL / (rate.atomics / DECIMAL_FRACTIONAL) <= MAX_U128
    ensures r.Ok? ==>
      var den := rate.atomics / DECIMAL_FRACTIONAL;
      r.value * den <= ratio * DECIMAL_FRACTIONAL < (r.value + 1) * den
  {
    DecimalMulFractional(rate);
    var den := DecimalMul(rate, DECIMAL_FRACTIONAL).value;
    MultiplyRatio(ratio, DECIMAL_FRACTIONAL, den)
  }

  /** The quoted amount of component `a` that `ratio` uusd would buy. */
  function SimQuote(cfg: Config, deps: Deps, a: Asset, ratio: u128): Result<u128> {
    match a.info
    case NativeToken(denom) =>
      if denom == UUSD then Ok(ratio)
      else deps.querier.marketSwap(Coin(UUSD, ratio), denom)
    case Token(addr) =>
      if addr != cfg.austTokenAddress then
        var pair :- deps.querier.pairInfo(cfg.astroportFactoryAddress, a.info, NativeToken(UUSD));
        deps.querier.pairSimulate(pair, Asset(NativeToken(UUSD), ratio))
      else
        var rate :- deps.querier.price(cfg.oracleHubContract, addr);
        AustFromUst(ratio, rate)
  }

  /** Each kind of component is quoted by its own collaborator: uusd is its
      own share, another native is the market's swap quote, a non-aUST token
      is its pair's simulated return (failing when there is no pair), and
      aUST is the oracle conversion. */
  lemma {:induction false} SimQuoteCases(cfg: Config, deps: Deps, a: Asset, ratio: u128)
    ensures IsUusd(a) ==> SimQuote(cfg, deps, a, ratio) == Ok(ratio)
    ensures a.info.NativeToken? && !IsUusd(a) ==>
      SimQuote(cfg, deps, a, ratio) == deps.querier.marketSwap(Coin(UUSD, ratio), a.info.denom)
    ensures a.info.Token? && a.info.contractAddr != cfg.austTokenAddress ==>
      var pair := deps.querier.pairInfo(cfg.astroportFactoryAddress, a.info, NativeToken(UUSD));
      SimQuote(cfg, deps, a, ratio) ==
        if pair.Err? then Err(pair.error)
        else deps.querier.pairSimulate(pair.value, Asset(NativeToken(UUSD), ratio))
    ensures a.info.Token? && a.info.contractAddr == cfg.austTokenAddress ==>
      var rate := deps.querier.price(cfg.oracleHubContract, a.info.contractAddr);
      SimQuote(cfg, deps, a, ratio) ==
        if rate.Err? then Err(rate.error) else AustFromUst(ratio, rate.value)
  {}

  /** `simulate_mint`'s loop from the amounts `acc` pushed so far. */
  function SimLoop(cfg: Config, deps: Deps, u: u128, total: u128, acc: seq<u128>, t: seq<Asset>): Result<seq<u128>>
    decreases |t|
  {
    if t == [] then Ok(acc)
    else
      var ratio :- MulDiv(u, t[0].amount, total);
      var q :- SimQuote(cfg, deps, t[0], ratio);
      SimLoop(cfg, deps, u, total, acc + [q], t[1..])
  }

  /** The quotes of a plan `p` of shares, appended to `acc`. */
  function SimPlan(cfg: Config, deps: Deps, acc: seq<u128>, t: seq<Asset>, p: seq<u128>): Result<seq<u128>>
    requires |t| == |p|
    decreases |t|
  {
    if t == [] then Ok(acc)
    else
      var q :- SimQuote(cfg, deps, t[0], p[0]);
      SimPlan(cfg, deps, acc + [q], t[1..], p[1..])
  }

  /** The whole of `simulate_mint` for `ust` uusd. */
  function SimulateMintSpec(cfg: Config, env: Env, deps: Deps, clusterAddress: string, ust: u128)
    : Result<SimulateMintResponse>
  {
    var cluster :- Validate(deps, clusterAddress);
    var cs :- deps.querier.clusterState(cluster);
    var total :- TotalWeight(cs.target);
    var amounts :- SimLoop(cfg, deps, ust, total, [], cs.target);
    var penalty :- Validate(deps, cs.penalty);
    var query := PenaltyQueryCreate(env.blockHeight, cs.outstandingBalanceTokens, cs.inv,
                                    amounts, cs.prices, Amounts(cs.target));
    var pr :- deps.querier.penaltyCreate(penalty, query);
    Ok(SimulateMintResponse(pr.createTokens, pr.penalty, pr.attributes, amounts))
  }

  method SimulateMint(cfg: Config, env: Env, deps: Deps, clusterAddress: string, ust: u128)
    returns (r: Result<SimulateMintResponse>)
    ensures r == SimulateMintSpec(cfg, env, deps, clusterAddress, ust)
  {
    var cluster :- Validate(deps, clusterAddress);
    var cs :- deps.querier.clusterState(cluster);
    var total :- TotalWeight(cs.target);

    var createAssetAmounts: seq<u128> := [];
    for i := 0 to |cs.target|
      invariant SimLoop(cfg, deps, ust, total, [], cs.target)
             == SimLoop(cfg, deps, ust, total, createAssetAmounts, cs.target[i..])
    {
      var asset := cs.target[i];
      assert cs.target[i..][0] == asset && cs.target[i..][1..] == cs.target[i + 1..];
      var assetRatio :- MulDiv(ust, asset.amount, total);
      var returnAmount :- SimQuote(cfg, deps, asset, assetRatio);
      createAssetAmounts := createAssetAmounts + [returnAmount];
    }
    assert cs.target[|cs.target|..] == [];

    var penaltyAddr :- Validate(deps, cs.penalty);
    var query := PenaltyQueryCreate(env.blockHeight, cs.outstandingBalanceTokens, cs.inv,
                                    createAssetAmounts, cs.prices, Amounts(cs.target));
    var penalty :- deps.querier.penaltyCreate(penaltyAddr, query);
    return Ok(SimulateMintResponse(penalty.createTokens, penalty.penalty, penalty.attributes, createAssetAmounts));
  }

  /** The preview loop succeeds exactly when the allocation plan exists and
      every component is quoted for its planned share, and then it is those
      quotes: the preview prices the very shares `Allocate` gives. */
  lemma {:induction false} SimLoopFollowsPlan(cfg: Config, deps: Deps, u: u128, total: u128, acc: seq<u128>, t: seq<Asset>)
    ensures SimLoop(cfg, deps, u, total, acc, t).Ok? <==>
      && Allocate(u, total, t).Ok?
      && SimPlan(cfg, deps, acc, t, Allocate(u, total, t).value).Ok?
    ensures SimLoop(cfg, deps, u, total, acc, t).Ok? ==>
      SimLoop(cfg, deps, u, total, acc, t) == SimPlan(cfg, deps, acc, t, Allocate(u, total, t).value)
    decreases |t|
  {
    AllocateShares(u, total, t);
    if t != [] {
      var ratio := MulDiv(u, t[0].amount, total);
      if ratio.Ok? {
        var q := SimQuote(cfg, deps, t[0], ratio.value);
        if q.Ok? {
          SimLoopFollowsPlan(cfg, deps, u, total, acc + [q.value], t[1..]);
        }
        if Allocate(u, total, t).Ok? {
          AllocateCons(u, total, t, Allocate(u, total, t).value);
        }
      }
    }
  }

  /** Quoting a plan succeeds exactly when every component's quote does, and
      then appends one amount per component, in target order, each the quote
      for that component's share. */
  lemma {:induction false} SimPlanOutputs(cfg: Config, deps: Deps, acc: seq<u128>, t: seq<Asset>, p: seq<u128>)
    requires |t| == |p|
    ensures SimPlan(cfg, deps, acc, t, p).Ok? <==>
      forall i :: 0 <= i < |t| ==> SimQuote(cfg, deps, t[i], p[i]).Ok?
    ensures SimPlan(cfg, deps, acc, t, p).Ok? ==>
      var r := SimPlan(cfg, deps, acc, t, p).value;
      && |r| == |acc| + |t| && r[..|acc|] == acc
      && forall i :: 0 <= i < |t| ==>
           SimQuote(cfg, deps, t[i], p[i]).Ok? && r[|acc| + i] == SimQuote(cfg, deps, t[i], p[i]).value
    decreases |t|
  {
    if t != [] {
      var q := SimQuote(cfg, deps, t[0], p[0]);
      QuoteAllShift(cfg, deps, t, p);
      if q.Ok? {
        SimPlanOutputs(cfg, deps, acc + [q.value], t[1..], p[1..]);
        if SimPlan(cfg, deps, acc, t, p).Ok? {
          var r := SimPlan(cfg, deps, acc, t, p).value;
          assert r[..|acc|] == (acc + [q.value])[..|acc|] == acc;
          forall i | 0 <= i < |t|
            ensures SimQuote(cfg, deps, t[i], p[i]).Ok? && r[|acc| + i] == SimQuote(cfg, deps, t[i], p[i]).value
          {
            if i == 0 {
              assert r[|acc|] == (acc + [q.value])[|acc|];
            } else {
              assert t[i] == t[1..][i - 1] && p[i] == p[1..][i - 1];
            }
          }
        }
      }
    }
  }

  /** Pointwise quoting of a list is quoting of its head and its tail. */
  lemma {:induction false} QuoteAllShift(cfg: Config, deps: Deps, t: seq<Asset>, p: seq<u128>)
    requires |t| == |p| && t != []
    ensures (forall i :: 0 <= i < |t| ==> SimQuote(cfg, deps, t[i], p[i]).Ok?) <==>
      SimQuote(cfg, deps, t[0], p[0]).Ok? &&
      forall i :: 0 <= i < |t[1..]| ==> SimQuote(cfg, deps, t[1..][i], p[1..][i]).Ok?
  {
    if SimQuote(cfg, deps, t[0], p[0]).Ok? &&
       forall i :: 0 <= i < |t[1..]| ==> SimQuote(cfg, deps, t[1..][i], p[1..][i]).Ok?
    {
      forall i | 0 <= i < |t| ensures SimQuote(cfg, deps, t[i], p[i]).Ok? {
        if i > 0 { assert t[i] == t[1..][i - 1] && p[i] == p[1..][i - 1]; }
      }
    }
    if forall i :: 0 <= i < |t| ==> SimQuote(cfg, deps, t[i], p[i]).Ok? {
      forall i | 0 <= i < |t[1..]| ensures SimQuote(cfg, deps, t[1..][i], p[1..][i]).Ok? {
        assert t[1..][i] == t[i + 1] && p[1..][i] == p[i + 1];
      }
    }
  }

  /** The steps a successful `simulate_mint` went through. */
  lemma {:induction false} SimulateMintShape(cfg: Config, env: Env, deps: Deps, clusterAddress: string, ust: u128,
                          resp: SimulateMintResponse)
    requires SimulateMintSpec(cfg, env, deps, clusterAddress, ust) == Ok(resp)
    ensures deps.addrValid(clusterAddress) && deps.querier.clusterState(clusterAddress).Ok?
    ensures
      var cs := deps.querier.clusterState(clusterAddress).value;
      && SumAmounts(cs.target) <= MAX_U128
      && SimLoop(cfg, deps, ust, SumAmounts(cs.target), [], cs.target) == Ok(resp.createAssetAmounts)
      && deps.addrValid(cs.penalty)
      && var query := PenaltyQueryCreate(env.blockHeight, cs.outstandingBalanceTokens, cs.inv,
                                         resp.createAssetAmounts, cs.prices, Amounts(cs.target));
      && deps.querier.penaltyCreate(cs.penalty, query).Ok?
      && var pr := deps.querier.penaltyCreate(cs.penalty, query).value;
      resp == SimulateMintResponse(pr.createTokens, pr.penalty, pr.attributes, resp.createAssetAmounts)
  {}

  /** A successful preview has one amount per target component, in target
      order: each is the quote for exactly the share `floor(ust * w / W)`
      the allocation plan gives that component. */
  lemma {:induction false} SimulateMintAmounts(cfg: Config, env: Env, deps: Deps, clusterAddress: string, ust: u128,
                            resp: SimulateMintResponse)
    requires SimulateMintSpec(cfg, env, deps, clusterAddress, ust) == Ok(resp)
    ensures deps.querier.clusterState(clusterAddress).Ok?
    ensures
      var cs := deps.querier.clusterState(clusterAddress).value;
      var w := SumAmounts(cs.target);
      && w <= MAX_U128
      && Allocate(ust, w, cs.target).Ok?
      && var p := Allocate(ust, w, cs.target).value;
      && |resp.createAssetAmounts| == |cs.target|
      && (forall i :: 0 <= i < |cs.target| ==>
            && p[i] * w <= ust * cs.target[i].amount < (p[i] + 1) * w
            && SimQuote(cfg, deps, cs.target[i], p[i]) == Ok(resp.createAssetAmounts[i]))
  {
    SimulateMintShape(cfg, env, deps, clusterAddress, ust, resp);
    var cs := deps.querier.clusterState(clusterAddress).value;
    var w: u128 := SumAmounts(cs.target);
    SimLoopFollowsPlan(cfg, deps, ust, w, [], cs.target);
    AllocateShares(ust, w, cs.target);
    var p := Allocate(ust, w, cs.target).value;
    SimPlanOutputs(cfg, deps, [], cs.target, p);
    var amounts := resp.createAssetAmounts;
    assert SimPlan(cfg, deps, [], cs.target, p) == Ok(amounts);
    forall i | 0 <= i < |cs.target|
      ensures SimQuote(cfg, deps, cs.target[i], p[i]) == Ok(amounts[i])
    {
      assert amounts[0 + i] == amounts[i];
    }
  }

  /** The penalty contract is asked with the cluster's supply, inventory and
      prices, the preview's amounts and the target weights in order, and its
      `create_tokens`, `penalty` and `attributes` are returned unchanged. */
  lemma {:induction false} SimulateMintPassthrough(cfg: Config, env: Env, deps: Deps, clusterAddress: string, ust: u128,
                                resp: SimulateMintResponse)
    requires SimulateMintSpec(cfg, env, deps, clusterAddress, ust) == Ok(resp)
    ensures deps.querier.clusterState(clusterAddress).Ok?
    ensures
      var cs := deps.querier.clusterState(clusterAddress).value;
      var query := PenaltyQueryCreate(env.blockHeight, cs.outstandingBalanceTokens, cs.inv,
                                      resp.createAssetAmounts, cs.prices, Amounts(cs.target));
      && |query.targetWeights| == |cs.target|
      && (forall i :: 0 <= i < |cs.target| ==> query.targetWeights[i] == cs.target[i].amount)
      && deps.querier.penaltyCreate(cs.penalty, query).Ok?
      && var pr := deps.querier.penaltyCreate(cs.penalty, query).value;
      && resp.createTokens == pr.createTokens && resp.penalty == pr.penalty
      && resp.attributes == pr.attributes
  {
    SimulateMintShape(cfg, env, deps, clusterAddress, ust, resp);
  }

  /** The preview succeeds exactly when the cluster address is valid, the
      cluster answers, the weight sum fits, the plan exists, every component
      is quoted for its share, the penalty address is valid and the penalty
      contract answers. */
  lemma {:induction false} SimulateMintSucceedsIff(cfg: Config, env: Env, deps: Deps, clusterAddress: string, ust: u128)
    ensures SimulateMintSpec(cfg, env, deps, clusterAddress, ust).Ok? <==>
      && deps.addrValid(clusterAddress)
      && deps.querier.clusterState(clusterAddress).Ok?
      && var cs := deps.querier.clusterState(clusterAddress).value;
      && SumAmounts(cs.target) <= MAX_U128
      && Allocate(ust, SumAmounts(cs.target), cs.target).Ok?
      && var p := Allocate(ust, SumAmounts(cs.target), cs.target).value;
      && (forall i :: 0 <= i < |cs.target| ==> SimQuote(cfg, deps, cs.target[i], p[i]).Ok?)
      && deps.addrValid(cs.penalty)
      && SimPlan(cfg, deps, [], cs.target, p).Ok?
      && deps.querier.penaltyCreate(cs.penalty,
           PenaltyQueryCreate(env.blockHeight, cs.outstandingBalanceTokens, cs.inv,
                              SimPlan(cfg, deps, [], cs.target, p).value, cs.prices, Amounts(cs.target))).Ok?
  {
    if deps.addrValid(clusterAddress) && deps.querier.clusterState(clusterAddress).Ok? {
      var cs := deps.querier.clusterState(clusterAddress).value;
      if SumAmounts(cs.target) <= MAX_U128 {
        var w: u128 := SumAmounts(cs.target);
        assert TotalWeight(cs.target) == Ok(w);
        SimLoopFollowsPlan(cfg, deps, ust, w, [], cs.target);
        if Allocate(ust, w, cs.target).Ok? {
          SimPlanOutputs(cfg, deps, [], cs.target, Allocate(ust, w, cs.target).value);
        }
      }
    }
  }
}
