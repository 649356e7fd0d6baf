/** The contract's configuration, the messages it accepts and emits, and the
    values its collaborators answer with.  Serialisation to JSON/binary is
    not modelled: a payload is carried as the value it encodes. */
module Messages {
  import opened Uint128
  import opened Assets

  /** The stored configuration (written once at instantiation, read-only here). */
  datatype Config = Config(
    incentiveContract: string,
    astroportFactoryAddress: string,
    austTokenAddress: string,
    anchorMarketContract: string,
    oracleHubContract: string,
    ownerAddress: string)

  /** The parts of the execution environment the contract reads. */
  datatype Env = Env(contractAddress: string, blockHeight: nat)

  datatype MessageInfo = MessageInfo(sender: string)

  /** Entry points of `execute`; the two stages the contract schedules for
      itself are the `_MintCT` and `_SendToUser` variants of the contract's `ExecuteMsg`. */
  datatype ExecuteMsg =
    | MintCT(clusterAddress: string)
    | PrivateMintCT(clusterAddress: string, natives: seq<string>, tokens: seq<string>,
                    clusterToken: string, user: string)
    | PrivateSendToUser(clusterToken: string, user: string)

  datatype QueryMsg = SimulateMintQuery(clusterAddress: string, ustAmount: u128)

  /** The contract payloads the contract sends (the pair swap always offers
      `uusd` and sets no belief price, spread or recipient; the allowance has
      no expiry). */
  datatype WasmPayload =
    | PairSwap(offerAsset: Asset)
    | DepositStable
    | Cw20Transfer(recipient: string, amount: u128)
    | Cw20IncreaseAllowance(spender: string, amount: u128)
    | IncentivesCreate(clusterContract: string, assetAmounts: seq<Asset>, minTokens: Option<u128>)
    | SelfCall(call: ExecuteMsg)

  datatype Option<+T> = None | Some(value: T)

  datatype CosmosMsg =
    | MarketSwap(offerCoin: Coin, askDenom: string)   // Terra market module swap
    | WasmExecute(contractAddr: string, payload: WasmPayload, funds: seq<Coin>)

  datatype Attribute = Attribute(key: string, value: string)

  datatype Response = Response(messages: seq<CosmosMsg>, attributes: seq<Attribute>)

  /** What a cluster reports about itself. */
  datatype ClusterState = ClusterState(
    outstandingBalanceTokens: u128,
    prices: seq<string>,
    inv: seq<u128>,
    penalty: string,
    clusterToken: string,
    target: seq<Asset>,
    clusterContractAddress: string,
    active: bool)

  /** The arguments of the penalty contract's `PenaltyQueryCreate`. */
  datatype PenaltyQuery = PenaltyQueryCreate(
    blockHeight: nat,
    clusterTokenSupply: u128,
    inventory: seq<u128>,
    createAssetAmounts: seq<u128>,
    assetPrices: seq<string>,
    targetWeights: seq<u128>)

  datatype PenaltyCreateResponse =
    PenaltyCreateResponse(createTokens: u128, penalty: u128, attributes: seq<Attribute>)

  datatype SimulateMintResponse = SimulateMintResponse(
    createTokens: u128,
    penalty: u128,
    attributes: seq<Attribute>,
    createAssetAmounts: seq<u128>)

  /** A message that runs `call` on the contract itself, with no funds. */
  function SelfMsg(env: Env, call: ExecuteMsg): CosmosMsg {
    WasmExecute(env.contractAddress, SelfCall(call), [])
  }

  /** The `uusd` a message takes out of the contract's balance. */
  function UusdSpent(m: CosmosMsg): nat {
    match m
    case MarketSwap(offer, _) => if offer.denom == UUSD then offer.amount else 0
    case WasmExecute(_, _, funds) => UusdIn(funds)
  }

  function UusdIn(funds: seq<Coin>): nat {
    if funds == [] then 0
    else (if funds[0].denom == UUSD then funds[0].amount else 0) + UusdIn(funds[1..])
  }

  function TotalUusdSpent(msgs: seq<CosmosMsg>): nat {
    if msgs == [] then 0 else UusdSpent(msgs[0]) + TotalUusdSpent(msgs[1..])
  }

  lemma {:induction false} TotalUusdSpentAppend(a: seq<CosmosMsg>, b: seq<CosmosMsg>)
    ensures TotalUusdSpent(a + b) == TotalUusdSpent(a) + TotalUusdSpent(b)
  {
    if a == [] {
      assert a + b == b;
    } else {
      assert (a + b)[1..] == a[1..] + b;
      TotalUusdSpentAppend(a[1..], b);
    }
  }
}
