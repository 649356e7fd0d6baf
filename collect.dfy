/** Stage two of a mint, `_mint_ct`: gather every balance the contract now
    holds of the components it was told about, approve the incentives
    contract for the tokens, ask it to create cluster tokens from all of them,
    and schedule the delivery stage on the contract itself. */
module CollectStage {
  import opened Uint128
  import opened Assets
  import opened Messages
  import opened Host
  import opened FundsOrder

  /** What `_mint_ct` has pushed onto its `msgs`, `funds`, `assets` and
      `attrs` vectors. */
  datatype Collected = Collected(msgs: seq<CosmosMsg>, funds: seq<Coin>,
                                 assets: seq<Asset>, attrs: seq<Attribute>)

  const NoneCollected := Collected([], [], [], [])

  /** The loop over `natives` from `acc`: each native's whole balance becomes
      a coin of the funds and a native asset. */
  function NativesLoop(env: Env, deps: Deps, acc: Collected, natives: seq<string>): Result<Collected>
    decreases |natives|
  {
    if natives == [] then Ok(acc)
    else
      var native := natives[0];
      var amount :- deps.querier.balance(env.contractAddress, native);
      NativesLoop(env, deps, NativesStep(acc, native, amount), natives[1..])
  }

  /** The loop over `tokens` from `acc`: each token address must be valid; its
      whole balance is approved for the incentives contract and becomes a
      token asset. */
  function TokensLoop(cfg: Config, env: Env, deps: Deps, acc: Collected, tokens: seq<string>): Result<Collected>
    decreases |tokens|
  {
    if tokens == [] then Ok(acc)
    else
      var token := tokens[0];
      var contractAddr :- Validate(deps, token);
      var amount :- deps.querier.tokenBalance(contractAddr, env.contractAddress);
      TokensLoop(cfg, env, deps, TokensStep(cfg, acc, contractAddr, amount), tokens[1..])
  }

  /** The whole of `_mint_ct`.  The result of validating `user` is discarded,
      so an invalid user does not stop the stage. */
  function PrivateMintCtSpec(cfg: Config, env: Env, deps: Deps, clusterAddress: string,
                             natives: seq<string>, tokens: seq<string>,
                             clusterToken: string, user: string): Result<Response>
  {
    var c1 :- NativesLoop(env, deps, NoneCollected, natives);
    var c2 :- TokensLoop(cfg, env, deps, c1, tokens);
    var create := WasmExecute(cfg.incentiveContract, IncentivesCreate(clusterAddress, c2.assets, None),
                              SortByDenom(c2.funds));
    var deliver := SelfMsg(env, PrivateSendToUser(clusterToken, user));
    Ok(Response(c2.msgs + [create, deliver], c2.attrs))
  }

  method PrivateMintCt(cfg: Config, env: Env, deps: Deps, clusterAddress: string,
                       natives: seq<string>, tokens: seq<string>,
                       clusterToken: string, user: string)
    returns (r: Result<Response>)
    ensures r == PrivateMintCtSpec(cfg, env, deps, clusterAddress, natives, tokens, clusterToken, user)
  {
    var msgs: seq<CosmosMsg> := [];
    var funds: seq<Coin> := [];
    var assets: seq<Asset> := [];
    var attrs: seq<Attribute> := [];

    for i := 0 to |natives|
      invariant NativesLoop(env, deps, NoneCollected, natives)
             == NativesLoop(env, deps, Collected(msgs, funds, assets, attrs), natives[i..])
    {
      var native := natives[i];
      assert natives[i..][0] == native && natives[i..][1..] == natives[i + 1..];
      var amount :- deps.querier.balance(env.contractAddress, native);
      funds := funds + [Coin(native, amount)];
      assets := assets + [Asset(NativeToken(native), amount)];
      attrs := attrs + [Attribute("denom", native), Attribute("balance", DecimalString(amount))];
    }
    assert natives[|natives|..] == [];

    ghost var c1 := Collected(msgs, funds, assets, attrs);
    for j := 0 to |tokens|
      invariant TokensLoop(cfg, env, deps, c1, tokens)
             == TokensLoop(cfg, env, deps, Collected(msgs, funds, assets, attrs), tokens[j..])
    {
      var token := tokens[j];
      assert tokens[j..][0] == token && tokens[j..][1..] == tokens[j + 1..];
      var contractAddr :- Validate(deps, token);
      var amount :- deps.querier.tokenBalance(contractAddr, env.contractAddress);
      msgs := msgs + [WasmExecute(contractAddr, Cw20IncreaseAllowance(cfg.incentiveContract, amount), [])];
      assets := assets + [Asset(Token(contractAddr), amount)];
      attrs := attrs + [Attribute("token", token), Attribute("balance", DecimalString(amount))];
    }
    assert tokens[|tokens|..] == [];

    var sorted := SortByDenom(funds);
    var create := WasmExecute(cfg.incentiveContract, IncentivesCreate(clusterAddress, assets, None), sorted);
    var deliver := SelfMsg(env, PrivateSendToUser(clusterToken, user));
    assert msgs + [create] + [deliver] == msgs + [create, deliver];
    msgs := msgs + [create];
    msgs := msgs + [deliver];
    return Ok(Response(msgs, attrs));
  }

  /** The natives loop succeeds exactly when every balance query answers. */
  lemma {:induction false} NativesLoopSucceedsIff(env: Env, deps: Deps, acc: Collected, natives: seq<string>)
    ensures NativesLoop(env, deps, acc, natives).Ok? <==>
      forall i :: 0 <= i < |natives| ==> deps.querier.balance(env.contractAddress, natives[i]).Ok?
    decreases |natives|
  {
    if natives != [] {
      var q := deps.querier.balance(env.contractAddress, natives[0]);
      ShiftAll(natives, (n: string) => deps.querier.balance(env.contractAddress, n).Ok?);
      if q.Ok? {
        NativesLoopSucceedsIff(env, deps, NativesStep(acc, natives[0], q.value), natives[1..]);
      }
    }
  }

  /** What one iteration of the natives loop pushes. */
  function NativesStep(acc: Collected, native: string, amount: u128): Collected
  {
    Collected(acc.msgs, acc.funds + [Coin(native, amount)],
              acc.assets + [Asset(NativeToken(native), amount)],
              acc.attrs + [Attribute("denom", native), Attribute("balance", DecimalString(amount))])
  }

  /** A successful natives loop adds no message and keeps the funds and
      assets it starts from, with one more of each per native. */
  lemma {:induction false} NativesLoopKeeps(env: Env, deps: Deps, acc: Collected, natives: seq<string>)
    requires NativesLoop(env, deps, acc, natives).Ok?
    ensures
      var r := NativesLoop(env, deps, acc, natives).value;
      && r.msgs == acc.msgs
      && |r.funds| == |acc.funds| + |natives| && r.funds[..|acc.funds|] == acc.funds
      && |r.assets| == |acc.assets| + |natives| && r.assets[..|acc.assets|] == acc.assets
    decreases |natives|
  {
    if natives != [] {
      var next := NativesStep(acc, natives[0], deps.querier.balance(env.contractAddress, natives[0]).value);
      NativesLoopKeeps(env, deps, next, natives[1..]);
      var r := NativesLoop(env, deps, acc, natives).value;
      assert r.funds[..|acc.funds|] == next.funds[..|acc.funds|];
      assert r.assets[..|acc.assets|] == next.assets[..|acc.assets|];
    }
  }

  /** A successful natives loop appends, for the i-th native, the coin and
      the native asset of its whole balance. */
  lemma {:induction false} NativesLoopOutputs(env: Env, deps: Deps, acc: Collected, natives: seq<string>)
    requires NativesLoop(env, deps, acc, natives).Ok?
    ensures
      var r := NativesLoop(env, deps, acc, natives).value;
      && |r.funds| == |acc.funds| + |natives| && |r.assets| == |acc.assets| + |natives|
      && forall i :: 0 <= i < |natives| ==>
           && deps.querier.balance(env.contractAddress, natives[i]).Ok?
           && var b := deps.querier.balance(env.contractAddress, natives[i]).value;
           && r.funds[|acc.funds| + i] == Coin(natives[i], b)
           && r.assets[|acc.assets| + i] == Asset(NativeToken(natives[i]), b)
    decreases |natives|
  {
    NativesLoopKeeps(env, deps, acc, natives);
    if natives != [] {
      var b := deps.querier.balance(env.contractAddress, natives[0]).value;
      var next := NativesStep(acc, natives[0], b);
      NativesLoopOutputs(env, deps, next, natives[1..]);
      NativesLoopKeeps(env, deps, next, natives[1..]);
      var r := NativesLoop(env, deps, acc, natives).value;
      forall i | 0 <= i < |natives|
        ensures && deps.querier.balance(env.contractAddress, natives[i]).Ok?
                && var b := deps.querier.balance(env.contractAddress, natives[i]).value;
                && r.funds[|acc.funds| + i] == Coin(natives[i], b)
                && r.assets[|acc.assets| + i] == Asset(NativeToken(natives[i]), b)
      {
        if i == 0 {
          assert r.funds[..|next.funds|][|acc.funds|] == r.funds[|acc.funds|];
          assert r.assets[..|next.assets|][|acc.assets|] == r.assets[|acc.assets|];
        } else {
          assert natives[i] == natives[1..][i - 1];
        }
      }
    }
  }

  /** The tokens loop succeeds exactly when every token address is valid and
      every balance query answers. */
  lemma {:induction false} TokensLoopSucceedsIff(cfg: Config, env: Env, deps: Deps, acc: Collected, tokens: seq<string>)
    ensures TokensLoop(cfg, env, deps, acc, tokens).Ok? <==>
      forall j :: 0 <= j < |tokens| ==>
        deps.addrValid(tokens[j]) && deps.querier.tokenBalance(tokens[j], env.contractAddress).Ok?
    decreases |tokens|
  {
    if tokens != [] {
      var t := tokens[0];
      var q := deps.querier.tokenBalance(t, env.contractAddress);
      ShiftAll(tokens, (s: string) => deps.addrValid(s) && deps.querier.tokenBalance(s, env.contractAddress).Ok?);
      if deps.addrValid(t) && q.Ok? {
        TokensLoopSucceedsIff(cfg, env, deps, TokensStep(cfg, acc, t, q.value), tokens[1..]);
      }
    }
  }

  /** What one iteration of the tokens loop pushes. */
  function TokensStep(cfg: Config, acc: Collected, token: string, amount: u128): Collected
  {
    Collected(acc.msgs + [WasmExecute(token, Cw20IncreaseAllowance(cfg.incentiveContract, amount), [])],
              acc.funds, acc.assets + [Asset(Token(token), amount)],
              acc.attrs + [Attribute("token", token), Attribute("balance", DecimalString(amount))])
  }

  /** A successful tokens loop appends, for the j-th token, one allowance of
      its whole balance to the incentives contract and the token asset of
      that balance. */
  lemma {:induction false} TokensLoopOutputs(cfg: Config, env: Env, deps: Deps, acc: Collected, tokens: seq<string>)
    requires TokensLoop(cfg, env, deps, acc, tokens).Ok?
    ensures
      var r := TokensLoop(cfg, env, deps, acc, tokens).value;
      && |r.msgs| == |acc.msgs| + |tokens| && |r.assets| == |acc.assets| + |tokens|
      && forall j :: 0 <= j < |tokens| ==>
           && deps.querier.tokenBalance(tokens[j], env.contractAddress).Ok?
           && var b := deps.querier.tokenBalance(tokens[j], env.contractAddress).value;
           && r.msgs[|acc.msgs| + j] == WasmExecute(tokens[j], Cw20IncreaseAllowance(cfg.incentiveContract, b), [])
           && r.assets[|acc.assets| + j] == Asset(Token(tokens[j]), b)
    decreases |tokens|
  {
    TokensLoopKeeps(cfg, env, deps, acc, tokens);
    if tokens != [] {
      var t := tokens[0];
      var b := deps.querier.tokenBalance(t, env.contractAddress).value;
      var next := TokensStep(cfg, acc, t, b);
      TokensLoopOutputs(cfg, env, deps, next, tokens[1..]);
      TokensLoopKeeps(cfg, env, deps, next, tokens[1..]);
      var r := TokensLoop(cfg, env, deps, acc, tokens).value;
      forall j | 0 <= j < |tokens|
        ensures && deps.querier.tokenBalance(tokens[j], env.contractAddress).Ok?
                && var b := deps.querier.tokenBalance(tokens[j], env.contractAddress).value;
                && r.msgs[|acc.msgs| + j] == WasmExecute(tokens[j], Cw20IncreaseAllowance(cfg.incentiveContract, b), [])
                && r.assets[|acc.assets| + j] == Asset(Token(tokens[j]), b)
      {
        if j == 0 {
          assert r.msgs[..|next.msgs|][|acc.msgs|] == r.msgs[|acc.msgs|];
          assert r.assets[..|next.assets|][|acc.assets|] == r.assets[|acc.assets|];
        } else {
          assert tokens[j] == tokens[1..][j - 1];
        }
      }
    }
  }

  /** A property holds of every element exactly when it holds of the head
      and of every element of the tail. */
  lemma {:induction false} ShiftAll(s: seq<string>, p: string -> bool)
    requires s != []
    ensures (forall i :: 0 <= i < |s| ==> p(s[i])) <==> p(s[0]) && forall i :: 0 <= i < |s[1..]| ==> p(s[1..][i])
  {
    if p(s[0]) && forall i :: 0 <= i < |s[1..]| ==> p(s[1..][i]) {
      forall i | 0 <= i < |s| ensures p(s[i]) {
        if i > 0 { assert s[i] == s[1..][i - 1]; }
      }
    }
  }

  /** The coins of a list of native assets. */
  function NativeCoins(a: seq<Asset>): (r: seq<Coin>)
    requires forall i :: 0 <= i < |a| ==> a[i].info.NativeToken?
    ensures |r| == |a|
    ensures forall i :: 0 <= i < |a| ==> r[i] == Coin(a[i].info.denom, a[i].amount)
  {
    if a == [] then [] else [Coin(a[0].info.denom, a[0].amount)] + NativeCoins(a[1..])
  }

  /** `_mint_ct` succeeds exactly when every native balance query answers,
      every token address is valid and every token balance query answers. */
  lemma {:induction false} PrivateMintCtSucceedsIff(cfg: Config, env: Env, deps: Deps, clusterAddress: string,
                                 natives: seq<string>, tokens: seq<string>,
                                 clusterToken: string, user: string)
    ensures PrivateMintCtSpec(cfg, env, deps, clusterAddress, natives, tokens, clusterToken, user).Ok? <==>
      && (forall i :: 0 <= i < |natives| ==> deps.querier.balance(env.contractAddress, natives[i]).Ok?)
      && (forall j :: 0 <= j < |tokens| ==>
            deps.addrValid(tokens[j]) && deps.querier.tokenBalance(tokens[j], env.contractAddress).Ok?)
  {
    NativesLoopSucceedsIff(env, deps, NoneCollected, natives);
    var c1 := NativesLoop(env, deps, NoneCollected, natives);
    if c1.Ok? {
      TokensLoopSucceedsIff(cfg, env, deps, c1.value, tokens);
    }
  }

  /** A successful `_mint_ct` sends one allowance per token, of its whole
      balance, to the incentives contract, in token order; then one
      `IncentivesCreate` for the cluster, to the incentives contract, with no
      minimum; then the delivery self-call for the cluster token and the
      user.  That is `|tokens| + 2` messages. */
  lemma {:induction false} PrivateMintCtMessages(cfg: Config, env: Env, deps: Deps, clusterAddress: string,
                              natives: seq<string>, tokens: seq<string>,
                              clusterToken: string, user: string, resp: Response)
    requires PrivateMintCtSpec(cfg, env, deps, clusterAddress, natives, tokens, clusterToken, user) == Ok(resp)
    ensures |resp.messages| == |tokens| + 2
    ensures forall j :: 0 <= j < |tokens| ==>
      && deps.querier.tokenBalance(tokens[j], env.contractAddress).Ok?
      && resp.messages[j] == WasmExecute(tokens[j], Cw20IncreaseAllowance(cfg.incentiveContract,
                               deps.querier.tokenBalance(tokens[j], env.contractAddress).value), [])
    ensures
      var create := resp.messages[|tokens|];
      && create.WasmExecute? && create.contractAddr == cfg.incentiveContract
      && create.payload.IncentivesCreate?
      && create.payload.clusterContract == clusterAddress && create.payload.minTokens == None
    ensures resp.messages[|tokens| + 1] == SelfMsg(env, PrivateSendToUser(clusterToken, user))
  {
    PrivateMintCtShape(cfg, env, deps, clusterAddress, natives, tokens, clusterToken, user, resp);
    var c1 := NativesLoop(env, deps, NoneCollected, natives).value;
    TokensLoopOutputs(cfg, env, deps, c1, tokens);
    NativesGathered(env, deps, natives);
    var c2 := TokensLoop(cfg, env, deps, c1, tokens).value;
    var create := WasmExecute(cfg.incentiveContract, IncentivesCreate(clusterAddress, c2.assets, None),
                              SortByDenom(c2.funds));
    var deliver := SelfMsg(env, PrivateSendToUser(clusterToken, user));
    assert resp.messages == c2.msgs + [create, deliver];
    forall j | 0 <= j < |tokens|
      ensures resp.messages[j] == c2.msgs[|c1.msgs| + j]
    {
      assert |c1.msgs| == 0;
    }
  }

  /** The `IncentivesCreate` of a successful `_mint_ct` lists the natives and
      then the tokens, in the order given, each with the contract's whole
      balance of it. */
  lemma {:induction false} PrivateMintCtAssets(cfg: Config, env: Env, deps: Deps, clusterAddress: string,
                            natives: seq<string>, tokens: seq<string>,
                            clusterToken: string, user: string, resp: Response)
    requires PrivateMintCtSpec(cfg, env, deps, clusterAddress, natives, tokens, clusterToken, user) == Ok(resp)
    ensures |resp.messages| == |tokens| + 2 && resp.messages[|tokens|].WasmExecute?
    ensures resp.messages[|tokens|].payload.IncentivesCreate?
    ensures
      var assets := resp.messages[|tokens|].payload.assetAmounts;
      && |assets| == |natives| + |tokens|
      && (forall i :: 0 <= i < |natives| ==>
            && deps.querier.balance(env.contractAddress, natives[i]).Ok?
            && assets[i] == Asset(NativeToken(natives[i]), deps.querier.balance(env.contractAddress, natives[i]).value))
      && (forall j :: 0 <= j < |tokens| ==>
            && deps.querier.tokenBalance(tokens[j], env.contractAddress).Ok?
            && assets[|natives| + j] == Asset(Token(tokens[j]), deps.querier.tokenBalance(tokens[j], env.contractAddress).value))
  {
    PrivateMintCtShape(cfg, env, deps, clusterAddress, natives, tokens, clusterToken, user, resp);
    var c1 := NativesLoop(env, deps, NoneCollected, natives).value;
    var c2 := TokensLoop(cfg, env, deps, c1, tokens).value;
    CollectedAssets(cfg, env, deps, natives, tokens, c1, c2);
    PrivateMintCtMessages(cfg, env, deps, clusterAddress, natives, tokens, clusterToken, user, resp);
    assert resp.messages[|tokens|] ==
      WasmExecute(cfg.incentiveContract, IncentivesCreate(clusterAddress, c2.assets, None), SortByDenom(c2.funds));
  }

  /** The funds of that `IncentivesCreate` are one coin per native asset, of
      the same amount, ordered by denom. */
  lemma {:induction false} PrivateMintCtFunds(cfg: Config, env: Env, deps: Deps, clusterAddress: string,
                           natives: seq<string>, tokens: seq<string>,
                           clusterToken: string, user: string, resp: Response)
    requires PrivateMintCtSpec(cfg, env, deps, clusterAddress, natives, tokens, clusterToken, user) == Ok(resp)
    ensures |resp.messages| == |tokens| + 2 && resp.messages[|tokens|].WasmExecute?
    ensures resp.messages[|tokens|].payload.IncentivesCreate?
    ensures
      var create := resp.messages[|tokens|];
      var assets := create.payload.assetAmounts;
      && |natives| <= |assets|
      && (forall i :: 0 <= i < |natives| ==> assets[i].info.NativeToken?)
      && SortedByDenom(create.funds)
      && multiset(create.funds) == multiset(NativeCoins(assets[..|natives|]))
  {
    PrivateMintCtShape(cfg, env, deps, clusterAddress, natives, tokens, clusterToken, user, resp);
    var c1 := NativesLoop(env, deps, NoneCollected, natives).value;
    var c2 := TokensLoop(cfg, env, deps, c1, tokens).value;
    CollectedFunds(cfg, env, deps, natives, tokens, c1, c2);
    PrivateMintCtMessages(cfg, env, deps, clusterAddress, natives, tokens, clusterToken, user, resp);
    var funds := SortByDenom(c2.funds);
    assert resp.messages[|tokens|] ==
      WasmExecute(cfg.incentiveContract, IncentivesCreate(clusterAddress, c2.assets, None), funds);
  }

  /** The assets gathered by the two loops, one after the other. */
  lemma {:induction false} CollectedAssets(cfg: Config, env: Env, deps: Deps, natives: seq<string>, tokens: seq<string>,
                        c1: Collected, c2: Collected)
    requires NativesLoop(env, deps, NoneCollected, natives) == Ok(c1)
    requires TokensLoop(cfg, env, deps, c1, tokens) == Ok(c2)
    ensures |c2.assets| == |natives| + |tokens|
    ensures forall i :: 0 <= i < |natives| ==>
      && deps.querier.balance(env.contractAddress, natives[i]).Ok?
      && c2.assets[i] == Asset(NativeToken(natives[i]), deps.querier.balance(env.contractAddress, natives[i]).value)
    ensures forall j :: 0 <= j < |tokens| ==>
      && deps.querier.tokenBalance(tokens[j], env.contractAddress).Ok?
      && c2.assets[|natives| + j] == Asset(Token(tokens[j]), deps.querier.tokenBalance(tokens[j], env.contractAddress).value)
  {
    CollectedNativeAssets(cfg, env, deps, natives, tokens, c1, c2);
    var n := |natives|;
    assert |c1.assets| == n by { NativesGathered(env, deps, natives); }
    TokenAssetsAfter(cfg, env, deps, n, tokens, c1, c2);
  }

  /** The native assets the first loop gathered stay at the front. */
  lemma {:induction false} CollectedNativeAssets(cfg: Config, env: Env, deps: Deps, natives: seq<string>, tokens: seq<string>,
                              c1: Collected, c2: Collected)
    requires NativesLoop(env, deps, NoneCollected, natives) == Ok(c1)
    requires TokensLoop(cfg, env, deps, c1, tokens) == Ok(c2)
    ensures |natives| <= |c2.assets|
    ensures forall i :: 0 <= i < |natives| ==>
      && deps.querier.balance(env.contractAddress, natives[i]).Ok?
      && c2.assets[i] == Asset(NativeToken(natives[i]), deps.querier.balance(env.contractAddress, natives[i]).value)
  {
    NativesGathered(env, deps, natives);
    TokensLoopKeeps(cfg, env, deps, c1, tokens);
    var prefix := c2.assets[..|natives|];
    assert prefix == c1.assets;
    forall i | 0 <= i < |natives|
      ensures && deps.querier.balance(env.contractAddress, natives[i]).Ok?
              && c2.assets[i] == Asset(NativeToken(natives[i]), deps.querier.balance(env.contractAddress, natives[i]).value)
    {
      assert prefix[i] == c2.assets[i];
    }
  }

  /** Behind the `n` assets it starts from, the tokens loop puts the token
      asset of each token's whole balance. */
  lemma {:induction false} TokenAssetsAfter(cfg: Config, env: Env, deps: Deps, n: nat, tokens: seq<string>, c1: Collected, c2: Collected)
    requires |c1.assets| == n
    requires TokensLoop(cfg, env, deps, c1, tokens) == Ok(c2)
    ensures |c2.assets| == n + |tokens|
    ensures forall j :: 0 <= j < |tokens| ==>
      && deps.querier.tokenBalance(tokens[j], env.contractAddress).Ok?
      && c2.assets[n + j] == Asset(Token(tokens[j]), deps.querier.tokenBalance(tokens[j], env.contractAddress).value)
  {
    TokensLoopOutputs(cfg, env, deps, c1, tokens);
  }

  /** The funds gathered by the two loops are the coins of the native assets. */
  lemma {:induction false} CollectedFunds(cfg: Config, env: Env, deps: Deps, natives: seq<string>, tokens: seq<string>,
                       c1: Collected, c2: Collected)
    requires NativesLoop(env, deps, NoneCollected, natives) == Ok(c1)
    requires TokensLoop(cfg, env, deps, c1, tokens) == Ok(c2)
    ensures |natives| <= |c2.assets|
    ensures forall i :: 0 <= i < |natives| ==> c2.assets[i].info.NativeToken?
    ensures c2.funds == NativeCoins(c2.assets[..|natives|])
  {
    NativesGathered(env, deps, natives);
    TokensLoopKeeps(cfg, env, deps, c1, tokens);
    var prefix := c2.assets[..|natives|];
    assert prefix == c1.assets;
    forall i | 0 <= i < |natives| ensures c2.assets[i].info.NativeToken? {
      assert prefix[i] == c2.assets[i];
    }
    assert NativeCoins(prefix) == c1.funds;
  }

  /** A successful tokens loop keeps the funds, and the messages and assets
      it starts from, with one more of each per token. */
  lemma {:induction false} TokensLoopKeeps(cfg: Config, env: Env, deps: Deps, acc: Collected, tokens: seq<string>)
    requires TokensLoop(cfg, env, deps, acc, tokens).Ok?
    ensures
      var r := TokensLoop(cfg, env, deps, acc, tokens).value;
      && r.funds == acc.funds
      && |r.msgs| == |acc.msgs| + |tokens| && r.msgs[..|acc.msgs|] == acc.msgs
      && |r.assets| == |acc.assets| + |tokens| && r.assets[..|acc.assets|] == acc.assets
    decreases |tokens|
  {
    if tokens != [] {
      var t := tokens[0];
      var next := TokensStep(cfg, acc, t, deps.querier.tokenBalance(t, env.contractAddress).value);
      TokensLoopKeeps(cfg, env, deps, next, tokens[1..]);
      var r := TokensLoop(cfg, env, deps, acc, tokens).value;
      assert r.msgs[..|acc.msgs|] == next.msgs[..|acc.msgs|];
      assert r.assets[..|acc.assets|] == next.assets[..|acc.assets|];
    }
  }

  /** The steps a successful `_mint_ct` went through. */
  lemma {:induction false} PrivateMintCtShape(cfg: Config, env: Env, deps: Deps, clusterAddress: string,
                           natives: seq<string>, tokens: seq<string>,
                           clusterToken: string, user: string, resp: Response)
    requires PrivateMintCtSpec(cfg, env, deps, clusterAddress, natives, tokens, clusterToken, user) == Ok(resp)
    ensures NativesLoop(env, deps, NoneCollected, natives).Ok?
    ensures
      var c1 := NativesLoop(env, deps, NoneCollected, natives).value;
      && TokensLoop(cfg, env, deps, c1, tokens).Ok?
      && var c2 := TokensLoop(cfg, env, deps, c1, tokens).value;
      resp == Response(c2.msgs + [WasmExecute(cfg.incentiveContract, IncentivesCreate(clusterAddress, c2.assets, None),
                                              SortByDenom(c2.funds)),
                                  SelfMsg(env, PrivateSendToUser(clusterToken, user))], c2.attrs)
  {}

  /** From nothing, the natives loop gathers exactly one native asset per
      denom, of its whole balance, and the coins of those assets as funds. */
  lemma {:induction false} NativesGathered(env: Env, deps: Deps, natives: seq<string>)
    requires NativesLoop(env, deps, NoneCollected, natives).Ok?
    ensures
      var c1 := NativesLoop(env, deps, NoneCollected, natives).value;
      && c1.msgs == []
      && |c1.assets| == |natives|
      && (forall i :: 0 <= i < |natives| ==>
            && deps.querier.balance(env.contractAddress, natives[i]).Ok?
            && c1.assets[i] == Asset(NativeToken(natives[i]), deps.querier.balance(env.contractAddress, natives[i]).value))
      && NativeCoins(c1.assets) == c1.funds
  {
    NativesLoopKeeps(env, deps, NoneCollected, natives);
    NativesLoopOutputs(env, deps, NoneCollected, natives);
    var c1 := NativesLoop(env, deps, NoneCollected, natives).value;
    forall i | 0 <= i < |natives|
      ensures && c1.assets[i] == Asset(NativeToken(natives[i]), deps.querier.balance(env.contractAddress, natives[i]).value)
              && c1.funds[i] == Coin(natives[i], deps.querier.balance(env.contractAddress, natives[i]).value)
    {
      assert c1.funds[0 + i] == c1.funds[i] && c1.assets[0 + i] == c1.assets[i];
    }
    NativeFunds(c1.funds, c1.assets);
  }

  /** The funds gathered by the natives loop are the coins of its assets. */
  lemma {:induction false} NativeFunds(funds: seq<Coin>, assets: seq<Asset>)
    requires |funds| == |assets|
    requires forall i :: 0 <= i < |assets| ==>
      assets[i].info.NativeToken? && funds[i] == Coin(assets[i].info.denom, assets[i].amount)
    ensures NativeCoins(assets) == funds
  {}
}
