/** The router: the one effect `mint_ct` schedules for each target component,
    chosen by the component's asset kind, and the lists it records for the
    next stage. */
module Router {
  import opened Uint128
  import opened Assets
  import opened Messages
  import opened Host

  /** `swap_to_ust`: find the Astroport pair of the offered asset and `uusd`
      and offer it `offer.amount` uusd, attached as funds. */
  function SwapToUst(deps: Deps, offer: Asset, factory: string): Result<CosmosMsg> {
    var pair :- deps.querier.pairInfo(factory, offer.info, NativeToken(UUSD));
    Ok(WasmExecute(pair, PairSwap(Asset(NativeToken(UUSD), offer.amount)), [Coin(UUSD, offer.amount)]))
  }

  /** What `mint_ct` has pushed onto its `natives`, `tokens`, `attrs` and
      `msgs` vectors. */
  datatype Routed = Routed(natives: seq<string>, tokens: seq<string>,
                           attrs: seq<Attribute>, msgs: seq<CosmosMsg>)
  {
    function Then(d: Routed): Routed {
      Routed(natives + d.natives, tokens + d.tokens, attrs + d.attrs, msgs + d.msgs)
    }
  }

  const NoneRouted := Routed([], [], [], [])

  /** The pushes of one iteration of `mint_ct`'s loop, for a component whose
      share is `ratio`. */
  function Route(cfg: Config, deps: Deps, a: Asset, ratio: u128): Result<Routed> {
    match a.info
    case NativeToken(denom) =>
      if denom == UUSD then Ok(Routed([denom], [], [], []))
      else
        Ok(Routed([denom], [],
                  [Attribute("swap_ust_to_native_", denom), Attribute("amount", DecimalString(ratio))],
                  [MarketSwap(Coin(UUSD, ratio), denom)]))
    case Token(addr) =>
      var attrs := [Attribute("swap_ust_to_token_", addr), Attribute("amount", DecimalString(ratio))];
      if addr != cfg.austTokenAddress then
        var m :- SwapToUst(deps, Asset(a.info, ratio), cfg.astroportFactoryAddress);
        Ok(Routed([], [addr], attrs, [m]))
      else
        Ok(Routed([], [addr], attrs,
                  [WasmExecute(cfg.anchorMarketContract, DepositStable, [Coin(UUSD, ratio)])]))
  }

  /** Routing fails only for a non-aUST token without a pair; otherwise a
      component is recorded in the list of its kind and gets exactly one
      effect spending exactly its share of uusd, except native `uusd`, which
      is kept: a market swap for another native, a `DepositStable` into
      Anchor for aUST, a pair swap for any other token. */
  lemma {:induction false} RouteEffect(cfg: Config, deps: Deps, a: Asset, ratio: u128)
    ensures Route(cfg, deps, a, ratio).Err? <==>
      && a.info.Token? && a.info.contractAddr != cfg.austTokenAddress
      && deps.querier.pairInfo(cfg.astroportFactoryAddress, a.info, NativeToken(UUSD)).Err?
    ensures Route(cfg, deps, a, ratio).Ok? ==>
      var d := Route(cfg, deps, a, ratio).value;
      && d.natives == (if a.info.NativeToken? then [a.info.denom] else [])
      && d.tokens == (if a.info.Token? then [a.info.contractAddr] else [])
      && |d.msgs| == (if IsUusd(a) then 0 else 1)
      && TotalUusdSpent(d.msgs) == (if IsUusd(a) then 0 else ratio)
      && d.msgs == Effect(cfg, deps, a, ratio)
      && (a.info.NativeToken? && !IsUusd(a) ==> d.msgs == [MarketSwap(Coin(UUSD, ratio), a.info.denom)])
      && (a.info.Token? && a.info.contractAddr == cfg.austTokenAddress ==>
            d.msgs == [WasmExecute(cfg.anchorMarketContract, DepositStable, [Coin(UUSD, ratio)])])
      && (a.info.Token? && a.info.contractAddr != cfg.austTokenAddress ==>
            var pair := deps.querier.pairInfo(cfg.astroportFactoryAddress, a.info, NativeToken(UUSD)).value;
            d.msgs == [WasmExecute(pair, PairSwap(Asset(NativeToken(UUSD), ratio)), [Coin(UUSD, ratio)])])
  {
    if Route(cfg, deps, a, ratio).Ok? {
      var d := Route(cfg, deps, a, ratio).value;
      if !IsUusd(a) {
        assert d.msgs[1..] == [];
        assert TotalUusdSpent(d.msgs) == UusdSpent(d.msgs[0]);
        assert UusdIn([Coin(UUSD, ratio)]) == ratio by { assert [Coin(UUSD, ratio)][1..] == []; }
      }
    }
  }

  /** The effect a component is meant to get for its share `ratio`, by kind:
      nothing for `uusd`, a market swap into another native, a deposit into
      Anchor for aUST, and for any other token a swap on its `uusd` pair
      (nothing when it has none, a case in which routing fails). */
  function Effect(cfg: Config, deps: Deps, a: Asset, ratio: u128): seq<CosmosMsg> {
    match a.info
    case NativeToken(denom) =>
      if denom == UUSD then [] else [MarketSwap(Coin(UUSD, ratio), denom)]
    case Token(addr) =>
      if addr == cfg.austTokenAddress then
        [WasmExecute(cfg.anchorMarketContract, DepositStable, [Coin(UUSD, ratio)])]
      else
        match deps.querier.pairInfo(cfg.astroportFactoryAddress, a.info, NativeToken(UUSD))
        case Ok(pair) => [WasmExecute(pair, PairSwap(Asset(NativeToken(UUSD), ratio)), [Coin(UUSD, ratio)])]
        case Err(_) => []
  }

  /** The effects of a plan `p`, component by component in target order. */
  function Effects(cfg: Config, deps: Deps, t: seq<Asset>, p: seq<u128>): seq<CosmosMsg>
    requires |t| == |p|
    decreases |t|
  {
    if t == [] then [] else Effect(cfg, deps, t[0], p[0]) + Effects(cfg, deps, t[1..], p[1..])
  }

  /** The uusd share of the components that are converted (all but `uusd`). */
  function SwappedShare(t: seq<Asset>, p: seq<u128>): nat
    requires |t| == |p|
  {
    if t == [] then 0 else (if IsUusd(t[0]) then 0 else p[0]) + SwappedShare(t[1..], p[1..])
  }

  lemma {:induction false} SwappedShareAtMost(t: seq<Asset>, p: seq<u128>)
    requires |t| == |p|
    ensures SwappedShare(t, p) <= Sum(p)
  {
    if t != [] {
      SwappedShareAtMost(t[1..], p[1..]);
    }
  }

  /** `mint_ct`'s loop over a plan `p` of shares, continued from `acc`. */
  function RoutePlan(cfg: Config, deps: Deps, acc: Routed, t: seq<Asset>, p: seq<u128>): Result<Routed>
    requires |t| == |p|
    decreases |t|
  {
    if t == [] then Ok(acc)
    else
      var d :- Route(cfg, deps, t[0], p[0]);
      RoutePlan(cfg, deps, acc.Then(d), t[1..], p[1..])
  }

  /** Routing a plan succeeds exactly when every component routes; then the
      `natives` and `tokens` lists are the target's natives and tokens in
      target order, the messages are each component's effect for its own
      share, in target order (one per non-uusd component), and they spend
      exactly the shares of the converted components. */
  lemma {:induction false} RoutePlanOutputs(cfg: Config, deps: Deps, acc: Routed, t: seq<Asset>, p: seq<u128>)
    requires |t| == |p|
    ensures RoutePlan(cfg, deps, acc, t, p).Ok? <==>
      forall i :: 0 <= i < |t| ==> Route(cfg, deps, t[i], p[i]).Ok?
    ensures RoutePlan(cfg, deps, acc, t, p).Ok? ==>
      var r := RoutePlan(cfg, deps, acc, t, p).value;
      && r.natives == acc.natives + NativeDenoms(t)
      && r.tokens == acc.tokens + TokenAddrs(t)
      && r.msgs == acc.msgs + Effects(cfg, deps, t, p)
      && |r.msgs| == |acc.msgs| + CountNonUusd(t)
      && TotalUusdSpent(r.msgs) == TotalUusdSpent(acc.msgs) + SwappedShare(t, p)
    decreases |t|
  {
    if t != [] {
      RouteAllShift(cfg, deps, t, p);
      var first := Route(cfg, deps, t[0], p[0]);
      if first.Ok? {
        var d := first.value;
        RoutePlanOutputs(cfg, deps, acc.Then(d), t[1..], p[1..]);
        RouteEffect(cfg, deps, t[0], p[0]);
        TotalUusdSpentAppend(acc.msgs, d.msgs);
        ThenAssoc(acc, d, NativeDenoms(t[1..]), TokenAddrs(t[1..]), Effects(cfg, deps, t[1..], p[1..]));
      }
    }
  }

  /** The list bookkeeping of one step of `RoutePlanOutputs`. */
  lemma {:induction false} ThenAssoc(acc: Routed, d: Routed, n: seq<string>, k: seq<string>, m: seq<CosmosMsg>)
    ensures acc.Then(d).natives + n == acc.natives + (d.natives + n)
    ensures acc.Then(d).tokens + k == acc.tokens + (d.tokens + k)
    ensures acc.Then(d).msgs + m == acc.msgs + (d.msgs + m)
  {}

  /** Pointwise routing of a list is routing of its head and its tail. */
  lemma {:induction false} RouteAllShift(cfg: Config, deps: Deps, t: seq<Asset>, p: seq<u128>)
    requires |t| == |p| && t != []
    ensures (forall i :: 0 <= i < |t| ==> Route(cfg, deps, t[i], p[i]).Ok?) <==>
      Route(cfg, deps, t[0], p[0]).Ok? &&
      forall i :: 0 <= i < |t[1..]| ==> Route(cfg, deps, t[1..][i], p[1..][i]).Ok?
  {
    if Route(cfg, deps, t[0], p[0]).Ok? &&
       forall i :: 0 <= i < |t[1..]| ==> Route(cfg, deps, t[1..][i], p[1..][i]).Ok?
    {
      forall i | 0 <= i < |t| ensures Route(cfg, deps, t[i], p[i]).Ok? {
        if i > 0 { assert t[i] == t[1..][i - 1] && p[i] == p[1..][i - 1]; }
      }
    }
    if forall i :: 0 <= i < |t| ==> Route(cfg, deps, t[i], p[i]).Ok? {
      forall i | 0 <= i < |t[1..]| ensures Route(cfg, deps, t[1..][i], p[1..][i]).Ok? {
        assert t[1..][i] == t[i + 1] && p[1..][i] == p[i + 1];
      }
    }
  }
}
